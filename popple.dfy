/** The karma service: the five operations that sit between the command
    handlers and the persistence layer.

    Each operation of the service starts one goroutine that writes exactly one
    result into a channel of capacity one. Here each operation is a method that
    returns that one result. A Go map is ranged over in an unspecified order:
    the methods take that order as `order`, any sequence that lists the map's
    keys once each, and every property below holds for every such order. */
module Popple {
  import opened Adapter

  // The result records. A payload of None stands for Go's nil.

  datatype AddKarmaToEntitiesResult = AddKarmaToEntitiesResult(levels: Option<map<string, int>>, err: Option<Error>)

  datatype GetConfigResult = GetConfigResult(c: Config, err: Option<Error>)

  datatype GetLevelsResult = GetLevelsResult(levels: Option<map<string, int>>, err: Option<Error>)

  datatype GetLeaderboardResult = GetLeaderboardResult(entries: Option<seq<LeaderboardEntry>>, err: Option<Error>)

  /** No element of `s` occurs twice. */
  predicate Distinct<T(==)>(s: seq<T>) {
    forall i, j :: 0 <= i < j < |s| ==> s[i] != s[j]
  }

  /** `order` is an order in which a range loop may visit the keys `keys`. */
  ghost predicate Enumerates(order: seq<string>, keys: set<string>) {
    Distinct(order) && forall n :: n in order <==> n in keys
  }

  /** The names whose delta is not zero. */
  function NonZero(levels: map<string, int>): set<string> {
    set n | n in levels && levels[n] != 0
  }

  /** The entity `key` is in the same state in `after` as in `before`. */
  ghost predicate Untouched(before: map<Key, int>, after: map<Key, int>, key: Key) {
    (key in after <==> key in before) && (key in before ==> after[key] == before[key])
  }

  // ---------------------------------------------------------------------------
  // AddKarmaToEntities

  /** A loop over names either is still running, with the levels collected so
      far, or has stopped on an error. */
  datatype Progress = Running(levels: map<string, int>) | Aborted(error: Error)

  /** The state of a bulk adjustment after some names: the stored karma, the
      calls made so far, and the progress. */
  datatype Run = Run(karma: map<Key, int>, calls: seq<Call>, progress: Progress)

  /** One name of a bulk adjustment, after the run `prev`: a zero delta is
      skipped; any other is a create call, whose error is dropped, then an
      add-karma call, whose error stops the loop. */
  function AddKarmaStep(prev: Run, faults: Faults, serverID: string, who: string, delta: int): Run {
    if prev.progress.Aborted? || delta == 0 then prev
    else
      var key := (serverID, who);
      var created := CreateEntityEffect(prev.karma, faults, key).0;
      var added := AddKarmaEffect(created, faults, key, delta);
      var calls := prev.calls + [Call.CreateEntity(key), Call.AddKarmaToEntity(key, delta)];
      match added.1
      case Err(e) => Run(added.0, calls, Aborted(e))
      case Ok(updated) => Run(added.0, calls, Running(prev.progress.levels[who := updated.karma]))
  }

  /** The bulk adjustment after the first `i` names of `order`, one name after
      the other; the whole call is the run after `|order|` names. */
  function AddKarmaRun(karma: map<Key, int>, faults: Faults, serverID: string, levels: map<string, int>, order: seq<string>, i: nat): Run
    requires i <= |order| && forall n :: n in order ==> n in levels
  {
    if i == 0 then Run(karma, [], Running(map[]))
    else AddKarmaStep(AddKarmaRun(karma, faults, serverID, levels, order, i - 1), faults, serverID, order[i - 1], levels[order[i - 1]])
  }

  /** The record the goroutine sends once the loop is over. */
  function AddKarmaResult(p: Progress): (r: AddKarmaToEntitiesResult)
    ensures r.levels.Some? != r.err.Some?
    ensures p.Running? ==> r.levels == Some(p.levels)
    ensures p.Aborted? ==> r.err == Some(p.error)
  {
    match p
    case Running(m) => AddKarmaToEntitiesResult(Some(m), None)
    case Aborted(e) => AddKarmaToEntitiesResult(None, Some(e))
  }

  /** Under the adapter's behaviour, the add-karma call for `key` fails when
      the call itself fails, or when the entity is absent and cannot be created. */
  predicate AddFails(karma: map<Key, int>, faults: Faults, key: Key) {
    key in faults.addKarma || (key !in karma && key in faults.createEntity)
  }

  /** The error that failing call reports. */
  function AddError(faults: Faults, key: Key): Error {
    if key in faults.addKarma then faults.addKarma[key] else NoRows
  }

  /** The names among the first `i` of `order` whose delta is not zero, in order. */
  function Moved(levels: map<string, int>, order: seq<string>, i: nat): (r: seq<string>)
    requires i <= |order| && forall n :: n in order ==> n in levels
    ensures forall n :: n in r ==> n in levels
  {
    if i == 0 then []
    else if levels[order[i - 1]] == 0 then Moved(levels, order, i - 1)
    else Moved(levels, order, i - 1) + [order[i - 1]]
  }

  /** The calls made for the names `names` on `serverID`: for each name, in
      order, a create call and then an add-karma call carrying its delta. */
  function PairCalls(serverID: string, levels: map<string, int>, names: seq<string>): (r: seq<Call>)
    requires forall n :: n in names ==> n in levels
    ensures |r| == 2 * |names|
    decreases |names|
  {
    if names == [] then []
    else
      var last := names[|names| - 1];
      PairCalls(serverID, levels, names[..|names| - 1]) + [Call.CreateEntity((serverID, last)), Call.AddKarmaToEntity((serverID, last), levels[last])]
  }

  /** Every call made for `names` is a create or add-karma call on `serverID` for one of them. */
  lemma {:induction false} PairCallsConcern(serverID: string, levels: map<string, int>, names: seq<string>)
    requires forall n :: n in names ==> n in levels
    ensures forall c :: c in PairCalls(serverID, levels, names) ==>
      (c.CreateEntity? || c.AddKarmaToEntity?) && c.key.0 == serverID && c.key.1 in names
    decreases |names|
  {
    if names != [] {
      var shorter := names[..|names| - 1];
      PairCallsConcern(serverID, levels, shorter);
      assert forall n :: n in shorter ==> n in names;
    }
  }

  /** Call `2k` is name k's create call, call `2k + 1` its add-karma call with its delta. */
  lemma {:induction false} PairCallsAt(serverID: string, levels: map<string, int>, names: seq<string>)
    requires forall n :: n in names ==> n in levels
    ensures forall k :: 0 <= k < |names| ==>
      && PairCalls(serverID, levels, names)[2 * k] == Call.CreateEntity((serverID, names[k]))
      && PairCalls(serverID, levels, names)[2 * k + 1] == Call.AddKarmaToEntity((serverID, names[k]), levels[names[k]])
    decreases |names|
  {
    if names != [] {
      var shorter := names[..|names| - 1];
      PairCallsAt(serverID, levels, shorter);
      forall k | 0 <= k < |shorter| ensures names[k] == shorter[k] { }
    }
  }

  /** Distinct names give calls that are all distinct: no call is made twice. */
  lemma {:induction false} PairCallsDistinct(serverID: string, levels: map<string, int>, names: seq<string>)
    requires Distinct(names) && forall n :: n in names ==> n in levels
    ensures Distinct(PairCalls(serverID, levels, names))
    decreases |names|
  {
    if names != [] {
      var shorter := names[..|names| - 1];
      var last := names[|names| - 1];
      assert Distinct(shorter);
      assert last !in shorter by {
        forall k | 0 <= k < |shorter| ensures shorter[k] != last {
          assert shorter[k] == names[k];
        }
      }
      PairCallsDistinct(serverID, levels, shorter);
      PairCallsConcern(serverID, levels, shorter);
      var prefix := PairCalls(serverID, levels, shorter);
      var calls := PairCalls(serverID, levels, names);
      assert calls == prefix + [Call.CreateEntity((serverID, last)), Call.AddKarmaToEntity((serverID, last), levels[last])];
      forall a, b | 0 <= a < b < |calls| ensures calls[a] != calls[b] {
        if b >= |prefix| && a < |prefix| {
          assert calls[a] in prefix;
        }
      }
    }
  }

  /** One name with a nonzero delta that goes through: it is reported and
      stored at its old karma plus its delta, and no other entity changes. */
  lemma StepSucceeds(karma: map<Key, int>, prev: Run, faults: Faults, serverID: string, who: string, delta: int)
    requires prev.progress.Running? && delta != 0
    requires Untouched(karma, prev.karma, (serverID, who))
    requires AddKarmaStep(prev, faults, serverID, who, delta).progress.Running?
    ensures var next := AddKarmaStep(prev, faults, serverID, who, delta);
      && next.progress.levels == prev.progress.levels[who := KarmaOf(karma, (serverID, who)) + delta]
      && (serverID, who) in next.karma
      && next.karma[(serverID, who)] == KarmaOf(karma, (serverID, who)) + delta
      && !AddFails(karma, faults, (serverID, who))
      && (forall other: Key :: other != (serverID, who) ==> Untouched(prev.karma, next.karma, other))
  {
  }

  /** One name whose add-karma call fails: that call's error is reported, its
      create call is kept, and no other entity changes. */
  lemma StepAborts(karma: map<Key, int>, prev: Run, faults: Faults, serverID: string, who: string, delta: int)
    requires prev.progress.Running? && delta != 0
    requires Untouched(karma, prev.karma, (serverID, who))
    requires AddKarmaStep(prev, faults, serverID, who, delta).progress.Aborted?
    ensures var next := AddKarmaStep(prev, faults, serverID, who, delta);
      var key := (serverID, who);
      && AddFails(karma, faults, key)
      && next.progress.error == AddError(faults, key)
      && (if key !in karma && key !in faults.createEntity
          then key in next.karma && next.karma[key] == 0
          else Untouched(karma, next.karma, key))
      && (forall other: Key :: other != key ==> Untouched(prev.karma, next.karma, other))
      && next.calls == prev.calls + [Call.CreateEntity(key), Call.AddKarmaToEntity(key, delta)]
  {
  }

  /** Once the loop has stopped, the names after it change nothing. */
  lemma {:induction false} AbortIsFinal(karma: map<Key, int>, faults: Faults, serverID: string, levels: map<string, int>, order: seq<string>, i: nat, k: nat)
    requires i <= k <= |order| && forall n :: n in order ==> n in levels
    requires AddKarmaRun(karma, faults, serverID, levels, order, i).progress.Aborted?
    ensures AddKarmaRun(karma, faults, serverID, levels, order, k) == AddKarmaRun(karma, faults, serverID, levels, order, i)
    decreases k
  {
    if i < k {
      AbortIsFinal(karma, faults, serverID, levels, order, i, k - 1);
    }
  }

  /** Every call a bulk adjustment makes is a create or an add-karma call on
      `serverID`, for a name of `order` whose delta is not zero. */
  lemma {:induction false} CallsStayInFrame(karma: map<Key, int>, faults: Faults, serverID: string, levels: map<string, int>, order: seq<string>, i: nat)
    requires i <= |order| && forall n :: n in order ==> n in levels
    ensures var run := AddKarmaRun(karma, faults, serverID, levels, order, i);
      forall c :: c in run.calls ==>
        (c.CreateEntity? || c.AddKarmaToEntity?) && c.key.0 == serverID && c.key.1 in order && levels[c.key.1] != 0
    decreases i
  {
    if i > 0 {
      var prev := AddKarmaRun(karma, faults, serverID, levels, order, i - 1);
      assert AddKarmaRun(karma, faults, serverID, levels, order, i) == AddKarmaStep(prev, faults, serverID, order[i - 1], levels[order[i - 1]]);
      CallsStayInFrame(karma, faults, serverID, levels, order, i - 1);
    }
  }

  /** A bulk adjustment changes no entity outside `serverID`, outside
      `order`, or whose delta is zero. */
  lemma {:induction false} KarmaStaysInFrame(karma: map<Key, int>, faults: Faults, serverID: string, levels: map<string, int>, order: seq<string>, i: nat)
    requires i <= |order| && forall n :: n in order ==> n in levels
    ensures var run := AddKarmaRun(karma, faults, serverID, levels, order, i);
      forall key: Key :: key.0 != serverID || key.1 !in order || levels[key.1] == 0 ==> Untouched(karma, run.karma, key)
    decreases i
  {
    if i > 0 {
      var prev := AddKarmaRun(karma, faults, serverID, levels, order, i - 1);
      assert AddKarmaRun(karma, faults, serverID, levels, order, i) == AddKarmaStep(prev, faults, serverID, order[i - 1], levels[order[i - 1]]);
      KarmaStaysInFrame(karma, faults, serverID, levels, order, i - 1);
    }
  }

  /** A running bulk adjustment reports only names of `order` whose delta is
      not zero. */
  lemma {:induction false} ReportsStayInFrame(karma: map<Key, int>, faults: Faults, serverID: string, levels: map<string, int>, order: seq<string>, i: nat)
    requires i <= |order| && forall n :: n in order ==> n in levels
    ensures var run := AddKarmaRun(karma, faults, serverID, levels, order, i);
      run.progress.Running? ==> forall n :: n in run.progress.levels ==> n in order && levels[n] != 0
    decreases i
  {
    if i > 0 {
      var prev := AddKarmaRun(karma, faults, serverID, levels, order, i - 1);
      assert AddKarmaRun(karma, faults, serverID, levels, order, i) == AddKarmaStep(prev, faults, serverID, order[i - 1], levels[order[i - 1]]);
      ReportsStayInFrame(karma, faults, serverID, levels, order, i - 1);
    }
  }

  /** Everything a bulk adjustment does concerns a name of `order` on
      `serverID` whose delta is not zero: no other entity is called on or
      changed, and no other name is reported. */
  lemma {:induction false} AddKarmaFrame(karma: map<Key, int>, faults: Faults, serverID: string, levels: map<string, int>, order: seq<string>, i: nat)
    requires i <= |order| && forall n :: n in order ==> n in levels
    ensures var run := AddKarmaRun(karma, faults, serverID, levels, order, i);
      && (forall c :: c in run.calls ==>
            (c.CreateEntity? || c.AddKarmaToEntity?) && c.key.0 == serverID && c.key.1 in order && levels[c.key.1] != 0)
      && (forall key: Key :: key.0 != serverID || key.1 !in order || levels[key.1] == 0 ==> Untouched(karma, run.karma, key))
      && (run.progress.Running? ==> forall n :: n in run.progress.levels ==> n in order && levels[n] != 0)
  {
    CallsStayInFrame(karma, faults, serverID, levels, order, i);
    KarmaStaysInFrame(karma, faults, serverID, levels, order, i);
    ReportsStayInFrame(karma, faults, serverID, levels, order, i);
  }

  /** Before the loop reaches name `order[m]`, it has neither called on,
      changed nor reported that name. */
  lemma {:induction false} NotYetReached(karma: map<Key, int>, faults: Faults, serverID: string, levels: map<string, int>, order: seq<string>, i: nat, m: nat)
    requires Distinct(order) && forall n :: n in order ==> n in levels
    requires i <= m < |order|
    ensures var run := AddKarmaRun(karma, faults, serverID, levels, order, i);
      && Untouched(karma, run.karma, (serverID, order[m]))
      && (forall c :: c in run.calls ==> !c.Concerns((serverID, order[m])))
      && (run.progress.Running? ==> order[m] !in run.progress.levels)
    decreases i
  {
    if i > 0 {
      NotYetReached(karma, faults, serverID, levels, order, i - 1, m);
      assert order[i - 1] != order[m];
    }
  }

  /** A bulk adjustment still running after `i` names reports every one of
      them with a nonzero delta, and none of them had a failing add-karma
      call. */
  lemma {:induction false} AddKarmaReports(karma: map<Key, int>, faults: Faults, serverID: string, levels: map<string, int>, order: seq<string>, i: nat)
    requires Distinct(order) && forall n :: n in order ==> n in levels
    requires i <= |order| && AddKarmaRun(karma, faults, serverID, levels, order, i).progress.Running?
    ensures var m := AddKarmaRun(karma, faults, serverID, levels, order, i).progress.levels;
      forall j :: 0 <= j < i && levels[order[j]] != 0 ==> order[j] in m && !AddFails(karma, faults, (serverID, order[j]))
    decreases i
  {
    if i > 0 {
      var prev := AddKarmaRun(karma, faults, serverID, levels, order, i - 1);
      var who := order[i - 1];
      assert AddKarmaRun(karma, faults, serverID, levels, order, i) == AddKarmaStep(prev, faults, serverID, who, levels[who]);
      assert prev.progress.Running?;
      AddKarmaReports(karma, faults, serverID, levels, order, i - 1);
      if levels[who] != 0 {
        NotYetReached(karma, faults, serverID, levels, order, i - 1, i - 1);
        StepSucceeds(karma, prev, faults, serverID, who, levels[who]);
      }
    }
  }

  /** Every name a running bulk adjustment reports carries its new total: the
      karma it had before (0 if it did not exist) plus its delta, which is
      also what is now stored. */
  lemma {:induction false} AddKarmaTotals(karma: map<Key, int>, faults: Faults, serverID: string, levels: map<string, int>, order: seq<string>, i: nat)
    requires Distinct(order) && forall n :: n in order ==> n in levels
    requires i <= |order| && AddKarmaRun(karma, faults, serverID, levels, order, i).progress.Running?
    ensures var run := AddKarmaRun(karma, faults, serverID, levels, order, i);
      var m := run.progress.levels;
      forall n :: n in m ==>
        && n in order
        && (serverID, n) in run.karma
        && run.karma[(serverID, n)] == m[n]
        && m[n] == KarmaOf(karma, (serverID, n)) + levels[n]
    decreases i
  {
    if i > 0 {
      var prev := AddKarmaRun(karma, faults, serverID, levels, order, i - 1);
      var who := order[i - 1];
      assert AddKarmaRun(karma, faults, serverID, levels, order, i) == AddKarmaStep(prev, faults, serverID, who, levels[who]);
      assert prev.progress.Running?;
      AddKarmaTotals(karma, faults, serverID, levels, order, i - 1);
      if levels[who] != 0 {
        NotYetReached(karma, faults, serverID, levels, order, i - 1, i - 1);
        StepSucceeds(karma, prev, faults, serverID, who, levels[who]);
      }
    }
  }

  /** A bulk adjustment still running after `i` names reports every one of
      them with a nonzero delta, each with its new total: the karma it had
      before (0 if it did not exist) plus its delta, which is also what is now
      stored. None of those names had a failing add-karma call. */
  lemma AddKarmaSuccess(karma: map<Key, int>, faults: Faults, serverID: string, levels: map<string, int>, order: seq<string>, i: nat)
    requires Distinct(order) && forall n :: n in order ==> n in levels
    requires i <= |order| && AddKarmaRun(karma, faults, serverID, levels, order, i).progress.Running?
    ensures var run := AddKarmaRun(karma, faults, serverID, levels, order, i);
      var m := run.progress.levels;
      && (forall j :: 0 <= j < i && levels[order[j]] != 0 ==> order[j] in m && !AddFails(karma, faults, (serverID, order[j])))
      && (forall n :: n in m ==>
            && n in order
            && (serverID, n) in run.karma
            && run.karma[(serverID, n)] == m[n]
            && m[n] == KarmaOf(karma, (serverID, n)) + levels[n])
  {
    AddKarmaReports(karma, faults, serverID, levels, order, i);
    AddKarmaTotals(karma, faults, serverID, levels, order, i);
  }

  /** How many names the loop has reached after `i` names: all of them while
      it runs, up to and including the one it stopped at otherwise. */
  function Reached(karma: map<Key, int>, faults: Faults, serverID: string, levels: map<string, int>, order: seq<string>, i: nat): (r: nat)
    requires i <= |order| && forall n :: n in order ==> n in levels
    ensures r <= i
    ensures AddKarmaRun(karma, faults, serverID, levels, order, i).progress.Running? ==> r == i
  {
    if i == 0 then 0
    else if AddKarmaRun(karma, faults, serverID, levels, order, i - 1).progress.Aborted? then Reached(karma, faults, serverID, levels, order, i - 1)
    else i
  }

  /** The calls made after `i` names are one create call and then one
      add-karma call with the name's delta for each name with a nonzero delta
      that the loop reached. */
  lemma {:induction false} AddKarmaCalls(karma: map<Key, int>, faults: Faults, serverID: string, levels: map<string, int>, order: seq<string>, i: nat)
    requires i <= |order| && forall n :: n in order ==> n in levels
    ensures AddKarmaRun(karma, faults, serverID, levels, order, i).calls
         == PairCalls(serverID, levels, Moved(levels, order, Reached(karma, faults, serverID, levels, order, i)))
    decreases i
  {
    if i > 0 {
      AddKarmaCalls(karma, faults, serverID, levels, order, i - 1);
      if AddKarmaRun(karma, faults, serverID, levels, order, i - 1).progress.Running? {
        var moved := Moved(levels, order, i - 1);
        assert (moved + [order[i - 1]])[..|moved|] == moved;
      }
    }
  }

  /** The loop went through the first `j` names and stopped at the next one. */
  ghost predicate StopsNext(karma: map<Key, int>, faults: Faults, serverID: string, levels: map<string, int>, order: seq<string>, j: nat)
    requires forall n :: n in order ==> n in levels
  {
    && j < |order|
    && AddKarmaRun(karma, faults, serverID, levels, order, j).progress.Running?
    && AddKarmaRun(karma, faults, serverID, levels, order, j + 1).progress.Aborted?
  }

  /** There is a first name at which the loop stops. */
  lemma {:induction false} FirstAbort(karma: map<Key, int>, faults: Faults, serverID: string, levels: map<string, int>, order: seq<string>, i: nat)
    requires i <= |order| && forall n :: n in order ==> n in levels
    requires AddKarmaRun(karma, faults, serverID, levels, order, i).progress.Aborted?
    ensures exists j: nat :: j < i && StopsNext(karma, faults, serverID, levels, order, j)
    decreases i
  {
    if AddKarmaRun(karma, faults, serverID, levels, order, i - 1).progress.Aborted? {
      FirstAbort(karma, faults, serverID, levels, order, i - 1);
    } else {
      assert StopsNext(karma, faults, serverID, levels, order, i - 1);
    }
  }

  /** The loop stops at name `order[j]`, and at no earlier one. */
  ghost predicate AbortsAt(karma: map<Key, int>, faults: Faults, serverID: string, levels: map<string, int>, order: seq<string>, j: nat, e: Error)
    requires forall n :: n in order ==> n in levels
    requires j < |order|
  {
    var run := AddKarmaRun(karma, faults, serverID, levels, order, |order|);
    var key := (serverID, order[j]);
    && run.progress == Aborted(e)
    // the name had a nonzero delta, and every earlier name went through
    && levels[order[j]] != 0
    && AddKarmaRun(karma, faults, serverID, levels, order, j).progress.Running?
    // its add-karma call failed, and that error is the one reported
    && AddFails(karma, faults, key)
    && e == AddError(faults, key)
    // its own create call is kept: an absent entity that could be created
    // stays stored at karma 0, any other is left as it was
    && (if key !in karma && key !in faults.createEntity
        then key in run.karma && run.karma[key] == 0
        else Untouched(karma, run.karma, key))
    // earlier adjustments stay in place: nothing is rolled back
    && (forall i :: 0 <= i < j && levels[order[i]] != 0 ==>
          (serverID, order[i]) in run.karma && run.karma[(serverID, order[i])] == KarmaOf(karma, (serverID, order[i])) + levels[order[i]])
    // later names are neither called on nor changed
    && (forall i :: j < i < |order| ==>
          Untouched(karma, run.karma, (serverID, order[i])) && forall c :: c in run.calls ==> !c.Concerns((serverID, order[i])))
    // the calls made: a pair for each earlier moved name, the last pair for this one
    && run.calls == PairCalls(serverID, levels, Moved(levels, order, j) + [order[j]])
  }

  // The four lemmas below describe the run after name `order[j]`, the
  // first name at which the loop stops; AbortsAtFirst puts them together.

  /** The stopping name: its add-karma call failed with the reported error,
      and its create call is kept. */
  lemma StopsOnFailingName(karma: map<Key, int>, faults: Faults, serverID: string, levels: map<string, int>, order: seq<string>, j: nat)
    requires Distinct(order) && forall n :: n in order ==> n in levels
    requires j < |order|
    requires AddKarmaRun(karma, faults, serverID, levels, order, j).progress.Running?
    requires AddKarmaRun(karma, faults, serverID, levels, order, j + 1).progress.Aborted?
    ensures var next := AddKarmaRun(karma, faults, serverID, levels, order, j + 1);
      var key := (serverID, order[j]);
      && levels[order[j]] != 0
      && AddFails(karma, faults, key)
      && next.progress == Aborted(AddError(faults, key))
      && (if key !in karma && key !in faults.createEntity
          then key in next.karma && next.karma[key] == 0
          else Untouched(karma, next.karma, key))
  {
    var prev := AddKarmaRun(karma, faults, serverID, levels, order, j);
    assert AddKarmaRun(karma, faults, serverID, levels, order, j + 1) == AddKarmaStep(prev, faults, serverID, order[j], levels[order[j]]);
    NotYetReached(karma, faults, serverID, levels, order, j, j);
    StepAborts(karma, prev, faults, serverID, order[j], levels[order[j]]);
  }

  /** Names before the stopping one keep their adjustment: nothing is rolled back. */
  lemma StopKeepsEarlier(karma: map<Key, int>, faults: Faults, serverID: string, levels: map<string, int>, order: seq<string>, j: nat)
    requires Distinct(order) && forall n :: n in order ==> n in levels
    requires j < |order|
    requires AddKarmaRun(karma, faults, serverID, levels, order, j).progress.Running?
    requires AddKarmaRun(karma, faults, serverID, levels, order, j + 1).progress.Aborted?
    ensures var next := AddKarmaRun(karma, faults, serverID, levels, order, j + 1);
      forall i :: 0 <= i < j && levels[order[i]] != 0 ==>
        (serverID, order[i]) in next.karma && next.karma[(serverID, order[i])] == KarmaOf(karma, (serverID, order[i])) + levels[order[i]]
  {
    var prev := AddKarmaRun(karma, faults, serverID, levels, order, j);
    var next := AddKarmaRun(karma, faults, serverID, levels, order, j + 1);
    assert next == AddKarmaStep(prev, faults, serverID, order[j], levels[order[j]]);
    NotYetReached(karma, faults, serverID, levels, order, j, j);
    StepAborts(karma, prev, faults, serverID, order[j], levels[order[j]]);
    AddKarmaSuccess(karma, faults, serverID, levels, order, j);
    forall i | 0 <= i < j && levels[order[i]] != 0
      ensures (serverID, order[i]) in next.karma
      ensures next.karma[(serverID, order[i])] == KarmaOf(karma, (serverID, order[i])) + levels[order[i]]
    {
      assert order[i] != order[j];
      assert Untouched(prev.karma, next.karma, (serverID, order[i]));
    }
  }

  /** Names after the stopping one are neither called on nor changed. */
  lemma StopSparesLater(karma: map<Key, int>, faults: Faults, serverID: string, levels: map<string, int>, order: seq<string>, j: nat)
    requires Distinct(order) && forall n :: n in order ==> n in levels
    requires j < |order|
    ensures var next := AddKarmaRun(karma, faults, serverID, levels, order, j + 1);
      forall i :: j < i < |order| ==>
        Untouched(karma, next.karma, (serverID, order[i])) && forall c :: c in next.calls ==> !c.Concerns((serverID, order[i]))
  {
    forall i | j < i < |order|
      ensures var next := AddKarmaRun(karma, faults, serverID, levels, order, j + 1);
        Untouched(karma, next.karma, (serverID, order[i])) && forall c :: c in next.calls ==> !c.Concerns((serverID, order[i]))
    {
      NotYetReached(karma, faults, serverID, levels, order, j + 1, i);
    }
  }

  /** The calls made up to the stop: a pair for each earlier moved name, the
      last pair for the stopping name. */
  lemma StopCalls(karma: map<Key, int>, faults: Faults, serverID: string, levels: map<string, int>, order: seq<string>, j: nat)
    requires Distinct(order) && forall n :: n in order ==> n in levels
    requires j < |order|
    requires AddKarmaRun(karma, faults, serverID, levels, order, j).progress.Running?
    requires AddKarmaRun(karma, faults, serverID, levels, order, j + 1).progress.Aborted?
    ensures AddKarmaRun(karma, faults, serverID, levels, order, j + 1).calls == PairCalls(serverID, levels, Moved(levels, order, j) + [order[j]])
  {
    var prev := AddKarmaRun(karma, faults, serverID, levels, order, j);
    assert AddKarmaRun(karma, faults, serverID, levels, order, j + 1) == AddKarmaStep(prev, faults, serverID, order[j], levels[order[j]]);
    NotYetReached(karma, faults, serverID, levels, order, j, j);
    StepAborts(karma, prev, faults, serverID, order[j], levels[order[j]]);
    AddKarmaCalls(karma, faults, serverID, levels, order, j);
    var moved := Moved(levels, order, j);
    assert (moved + [order[j]])[..|moved|] == moved;
  }

  /** The loop ran through the first `j` names and stopped at the next one. */
  lemma AbortsAtFirst(karma: map<Key, int>, faults: Faults, serverID: string, levels: map<string, int>, order: seq<string>, j: nat)
    requires Distinct(order) && forall n :: n in order ==> n in levels
    requires j < |order|
    requires AddKarmaRun(karma, faults, serverID, levels, order, j).progress.Running?
    requires AddKarmaRun(karma, faults, serverID, levels, order, j + 1).progress.Aborted?
    ensures var run := AddKarmaRun(karma, faults, serverID, levels, order, |order|);
      run.progress.Aborted? && AbortsAt(karma, faults, serverID, levels, order, j, run.progress.error)
  {
    AbortIsFinal(karma, faults, serverID, levels, order, j + 1, |order|);
    StopsOnFailingName(karma, faults, serverID, levels, order, j);
    StopKeepsEarlier(karma, faults, serverID, levels, order, j);
    StopSparesLater(karma, faults, serverID, levels, order, j);
    StopCalls(karma, faults, serverID, levels, order, j);
  }

  /** A bulk adjustment that stopped did so on a failing add-karma call, with
      the effects described by AbortsAt. */
  lemma AddKarmaAborts(karma: map<Key, int>, faults: Faults, serverID: string, levels: map<string, int>, order: seq<string>)
    requires Distinct(order) && forall n :: n in order ==> n in levels
    requires AddKarmaRun(karma, faults, serverID, levels, order, |order|).progress.Aborted?
    ensures exists j ::
      && 0 <= j < |order|
      && AbortsAt(karma, faults, serverID, levels, order, j, AddKarmaRun(karma, faults, serverID, levels, order, |order|).progress.error)
  {
    FirstAbort(karma, faults, serverID, levels, order, |order|);
    var j: nat :| j < |order| && StopsNext(karma, faults, serverID, levels, order, j);
    AbortsAtFirst(karma, faults, serverID, levels, order, j);
  }

  /** Over a whole map: a name with a zero delta is never called on, its
      entity is left as it was, and it is not reported. */
  lemma ZeroDeltaIsSkipped(karma: map<Key, int>, faults: Faults, serverID: string, levels: map<string, int>, order: seq<string>, name: string)
    requires Enumerates(order, levels.Keys)
    requires name in levels && levels[name] == 0
    ensures var run := AddKarmaRun(karma, faults, serverID, levels, order, |order|);
      && (forall c :: c in run.calls ==> !c.Concerns((serverID, name)))
      && Untouched(karma, run.karma, (serverID, name))
      && (run.progress.Running? ==> name !in run.progress.levels)
  {
    AddKarmaFrame(karma, faults, serverID, levels, order, |order|);
  }

  /** Over a whole map, whatever the order: the adjustment succeeds exactly
      when no name with a nonzero delta has a failing add-karma call; then the
      reported levels have exactly the names with a nonzero delta as keys,
      each mapped to its old karma plus its delta, which is what is stored,
      and no other entity changed. */
  lemma AddKarmaSucceedsExactly(karma: map<Key, int>, faults: Faults, serverID: string, levels: map<string, int>, order: seq<string>)
    requires Enumerates(order, levels.Keys)
    ensures var run := AddKarmaRun(karma, faults, serverID, levels, order, |order|);
      run.progress.Running? <==> forall n :: n in NonZero(levels) ==> !AddFails(karma, faults, (serverID, n))
    ensures var run := AddKarmaRun(karma, faults, serverID, levels, order, |order|);
      run.progress.Running? ==>
        && run.progress.levels.Keys == NonZero(levels)
        && (forall n :: n in NonZero(levels) ==>
              && run.progress.levels[n] == KarmaOf(karma, (serverID, n)) + levels[n]
              && (serverID, n) in run.karma
              && run.karma[(serverID, n)] == run.progress.levels[n])
        && (forall key: Key :: key.0 != serverID || key.1 !in NonZero(levels) ==> Untouched(karma, run.karma, key))
  {
    var run := AddKarmaRun(karma, faults, serverID, levels, order, |order|);
    AddKarmaFrame(karma, faults, serverID, levels, order, |order|);
    if run.progress.Running? {
      AddKarmaSuccess(karma, faults, serverID, levels, order, |order|);
      forall n | n in NonZero(levels) ensures n in run.progress.levels && !AddFails(karma, faults, (serverID, n)) {
        var j :| 0 <= j < |order| && order[j] == n;
      }
    } else {
      AddKarmaAborts(karma, faults, serverID, levels, order);
      var j :| 0 <= j < |order| && AbortsAt(karma, faults, serverID, levels, order, j, run.progress.error);
      assert order[j] in NonZero(levels);
    }
  }

  /** Over a whole map, whatever the order: the calls made are, name by name
      in the loop's order, one create call and then one add-karma call
      carrying that name's own delta, for each name with a nonzero delta up
      to the one the loop stops at (AbortsAt gives the calls of a stopped
      loop); no call is made twice. On success every name with a nonzero
      delta has its create and its add-karma call. */
  lemma AddKarmaCallsExactly(karma: map<Key, int>, faults: Faults, serverID: string, levels: map<string, int>, order: seq<string>)
    requires Enumerates(order, levels.Keys)
    ensures var run := AddKarmaRun(karma, faults, serverID, levels, order, |order|);
      && |run.calls| % 2 == 0
      && Distinct(run.calls)
      && (run.progress.Running? ==>
            && run.calls == PairCalls(serverID, levels, Moved(levels, order, |order|))
            && (forall n :: n in NonZero(levels) ==>
                  Call.CreateEntity((serverID, n)) in run.calls && Call.AddKarmaToEntity((serverID, n), levels[n]) in run.calls))
  {
    var run := AddKarmaRun(karma, faults, serverID, levels, order, |order|);
    var moved := Moved(levels, order, Reached(karma, faults, serverID, levels, order, |order|));
    AddKarmaCalls(karma, faults, serverID, levels, order, |order|);
    MovedDistinct(levels, order, Reached(karma, faults, serverID, levels, order, |order|));
    PairCallsDistinct(serverID, levels, moved);
    assert |run.calls| == 2 * |moved|;
    if run.progress.Running? {
      MovedNames(levels, order, |order|);
      PairCallsCover(serverID, levels, moved);
    }
  }

  /** Each name's pair is among the calls made for a list of names. */
  lemma {:induction false} PairCallsCover(serverID: string, levels: map<string, int>, names: seq<string>)
    requires forall n :: n in names ==> n in levels
    ensures forall n :: n in names ==>
      && Call.CreateEntity((serverID, n)) in PairCalls(serverID, levels, names)
      && Call.AddKarmaToEntity((serverID, n), levels[n]) in PairCalls(serverID, levels, names)
    decreases |names|
  {
    if names != [] {
      var shorter := names[..|names| - 1];
      PairCallsCover(serverID, levels, shorter);
      assert forall n :: n in names ==> n in shorter || n == names[|names| - 1];
    }
  }

  /** The moved names are exactly the names of the first `i` with a nonzero delta. */
  lemma {:induction false} MovedNames(levels: map<string, int>, order: seq<string>, i: nat)
    requires i <= |order| && forall n :: n in order ==> n in levels
    ensures forall n :: n in Moved(levels, order, i) ==> n in order && levels[n] != 0
    ensures forall j :: 0 <= j < i && levels[order[j]] != 0 ==> order[j] in Moved(levels, order, i)
    decreases i
  {
    if i > 0 {
      MovedNames(levels, order, i - 1);
    }
  }

  /** The names not yet reached are not among the moved ones. */
  lemma {:induction false} MovedBefore(levels: map<string, int>, order: seq<string>, i: nat, m: nat)
    requires Distinct(order) && forall n :: n in order ==> n in levels
    requires i <= m < |order|
    ensures order[m] !in Moved(levels, order, i)
    decreases i
  {
    if i > 0 {
      MovedBefore(levels, order, i - 1, m);
      assert order[i - 1] != order[m];
    }
  }

  /** Distinct names give distinct moved names. */
  lemma {:induction false} MovedDistinct(levels: map<string, int>, order: seq<string>, i: nat)
    requires Distinct(order) && forall n :: n in order ==> n in levels
    requires i <= |order|
    ensures Distinct(Moved(levels, order, i))
    decreases i
  {
    if i > 0 {
      MovedDistinct(levels, order, i - 1);
      MovedBefore(levels, order, i - 1, i - 1);
      var prev := Moved(levels, order, i - 1);
      if levels[order[i - 1]] != 0 {
        var r := prev + [order[i - 1]];
        forall a, b | 0 <= a < b < |r| ensures r[a] != r[b] {
          if b == |prev| {
            assert r[a] in prev;
          }
        }
      }
    }
  }

  /** Against an empty store where no call fails, the reported levels are
      the nonzero deltas themselves. */
  lemma AddKarmaFromEmpty(faults: Faults, serverID: string, levels: map<string, int>, order: seq<string>)
    requires Enumerates(order, levels.Keys)
    requires forall n :: n in NonZero(levels) ==> (serverID, n) !in faults.addKarma && (serverID, n) !in faults.createEntity
    ensures AddKarmaRun(map[], faults, serverID, levels, order, |order|).progress == Running(map n | n in NonZero(levels) :: levels[n])
  {
    AddKarmaSucceedsExactly(map[], faults, serverID, levels, order);
  }

  /** Adjustments add up: two successful calls that both move `name` leave
      it at its old karma plus both deltas. */
  lemma AddKarmaAccumulates(karma: map<Key, int>, faults: Faults, serverID: string,
                            first: map<string, int>, firstOrder: seq<string>,
                            second: map<string, int>, secondOrder: seq<string>, name: string)
    requires Enumerates(firstOrder, first.Keys) && Enumerates(secondOrder, second.Keys)
    requires AddKarmaRun(karma, faults, serverID, first, firstOrder, |firstOrder|).progress.Running?
    requires AddKarmaRun(AddKarmaRun(karma, faults, serverID, first, firstOrder, |firstOrder|).karma, faults, serverID, second, secondOrder, |secondOrder|).progress.Running?
    requires name in first && first[name] != 0 && name in second && second[name] != 0
    ensures var run := AddKarmaRun(AddKarmaRun(karma, faults, serverID, first, firstOrder, |firstOrder|).karma, faults, serverID, second, secondOrder, |secondOrder|);
      && name in run.progress.levels
      && run.progress.levels[name] == KarmaOf(karma, (serverID, name)) + first[name] + second[name]
      && (serverID, name) in run.karma
      && run.karma[(serverID, name)] == run.progress.levels[name]
  {
    var run1 := AddKarmaRun(karma, faults, serverID, first, firstOrder, |firstOrder|);
    AddKarmaSucceedsExactly(karma, faults, serverID, first, firstOrder);
    assert name in NonZero(first);
    AddKarmaSucceedsExactly(run1.karma, faults, serverID, second, secondOrder);
    assert name in NonZero(second);
  }

  method AddKarmaToEntities(store: Store, serverID: string, levels: map<string, int>, order: seq<string>)
    returns (r: AddKarmaToEntitiesResult)
    requires Enumerates(order, levels.Keys)
    modifies store`karma, store`log
    ensures var run := AddKarmaRun(old(store.karma), store.faults, serverID, levels, order, |order|);
      && store.karma == run.karma
      && store.log == old(store.log) + run.calls
      && r == AddKarmaResult(run.progress)
  {
    var updatedLevels: map<string, int> := map[];
    for i := 0 to |order|
      invariant var run := AddKarmaRun(old(store.karma), store.faults, serverID, levels, order, i);
        && store.karma == run.karma
        && store.log == old(store.log) + run.calls
        && run.progress == Running(updatedLevels)
    {
      var who := order[i];
      var karma := levels[who];
      ghost var prev := AddKarmaRun(old(store.karma), store.faults, serverID, levels, order, i);
      assert AddKarmaRun(old(store.karma), store.faults, serverID, levels, order, i + 1)
        == AddKarmaStep(prev, store.faults, serverID, who, karma);
      if karma == 0 {
        continue;
      }
      var _ := store.CreateEntity(serverID, who);
      var updated := store.AddKarmaToEntity(Entity(serverID, who, 0), karma);
      if updated.Err? {
        AbortIsFinal(old(store.karma), store.faults, serverID, levels, order, i + 1, |order|);
        return AddKarmaToEntitiesResult(None, Some(updated.error));
      }
      updatedLevels := updatedLevels[who := updated.value.karma];
    }
    r := AddKarmaToEntitiesResult(Some(updatedLevels), None);
  }

  // ---------------------------------------------------------------------------
  // GetConfig

  method GetConfig(store: Store, serverID: string) returns (r: GetConfigResult)
    modifies store`log
    ensures (r.c, r.err) == ConfigLookup(store.noAnnounce, store.faults, serverID)
    ensures store.log == old(store.log) + [Call.GetConfig(serverID)]
  {
    var c, e := store.GetConfig(serverID);
    r := GetConfigResult(c, e);
  }

  // ---------------------------------------------------------------------------
  // GetLevels

  /** The state of a bulk lookup after some names: the calls made so far and the progress. */
  datatype Scan = Scan(calls: seq<Call>, progress: Progress)

  /** The bulk lookup after the first `i` names of `order`: "not found"
      counts as karma 0, any other error stops the loop; the whole call is
      the lookup after `|order|` names. */
  function LookupRun(karma: map<Key, int>, faults: Faults, serverID: string, order: seq<string>, i: nat): Scan
    requires i <= |order|
  {
    if i == 0 then Scan([], Running(map[]))
    else
      var prev := LookupRun(karma, faults, serverID, order, i - 1);
      var name := order[i - 1];
      if prev.progress.Aborted? then prev
      else
        var calls := prev.calls + [Call.GetEntity((serverID, name))];
        match EntityLookup(karma, faults, (serverID, name))
        case Other(e) => Scan(calls, Aborted(e))
        case Found(k) => Scan(calls, Running(prev.progress.levels[name := k]))
        case NotFound => Scan(calls, Running(prev.progress.levels[name := 0]))
  }

  /** The record the goroutine sends once the loop is over. */
  function LevelsResult(p: Progress): (r: GetLevelsResult)
    ensures r.levels.Some? != r.err.Some?
    ensures p.Running? ==> r.levels == Some(p.levels)
    ensures p.Aborted? ==> r.err == Some(p.error)
  {
    match p
    case Running(m) => GetLevelsResult(Some(m), None)
    case Aborted(e) => GetLevelsResult(None, Some(e))
  }

  /** While the lookup runs, it has looked up each name once, in order. */
  lemma {:induction false} LookupCalls(karma: map<Key, int>, faults: Faults, serverID: string, order: seq<string>, i: nat)
    requires i <= |order| && LookupRun(karma, faults, serverID, order, i).progress.Running?
    ensures var scan := LookupRun(karma, faults, serverID, order, i);
      && |scan.calls| == i
      && (forall j :: 0 <= j < i ==> scan.calls[j] == Call.GetEntity((serverID, order[j])))
    decreases i
  {
    if i > 0 {
      var prev := LookupRun(karma, faults, serverID, order, i - 1);
      assert prev.progress.Running?;
      LookupCalls(karma, faults, serverID, order, i - 1);
      assert LookupRun(karma, faults, serverID, order, i).calls == prev.calls + [Call.GetEntity((serverID, order[i - 1]))];
    }
  }

  /** While the lookup runs, every name looked up is reported with its karma. */
  lemma {:induction false} LookupReports(karma: map<Key, int>, faults: Faults, serverID: string, order: seq<string>, i: nat)
    requires i <= |order| && LookupRun(karma, faults, serverID, order, i).progress.Running?
    ensures var m := LookupRun(karma, faults, serverID, order, i).progress.levels;
      && (forall j :: 0 <= j < i ==> order[j] in m && !EntityLookup(karma, faults, (serverID, order[j])).Other?)
      && (forall n :: n in m ==>
            && n in order
            && (|| EntityLookup(karma, faults, (serverID, n)) == Found(m[n])
                || (EntityLookup(karma, faults, (serverID, n)) == NotFound && m[n] == 0)))
    decreases i
  {
    if i > 0 {
      assert LookupRun(karma, faults, serverID, order, i - 1).progress.Running?;
      LookupReports(karma, faults, serverID, order, i - 1);
    }
  }

  /** A bulk lookup still running after `i` names looked up each of them
      once, in order, met no error other than "not found", and reports every
      one of them: with its stored karma when found, with 0 when not found. */
  lemma {:induction false} LookupSuccess(karma: map<Key, int>, faults: Faults, serverID: string, order: seq<string>, i: nat)
    requires i <= |order| && LookupRun(karma, faults, serverID, order, i).progress.Running?
    ensures var scan := LookupRun(karma, faults, serverID, order, i);
      var m := scan.progress.levels;
      && (forall j :: 0 <= j < i ==> order[j] in m && !EntityLookup(karma, faults, (serverID, order[j])).Other?)
      && (forall n :: n in m ==>
            && n in order
            && (|| EntityLookup(karma, faults, (serverID, n)) == Found(m[n])
                || (EntityLookup(karma, faults, (serverID, n)) == NotFound && m[n] == 0)))
      && |scan.calls| == i
      && (forall j :: 0 <= j < i ==> scan.calls[j] == Call.GetEntity((serverID, order[j])))
  {
    LookupCalls(karma, faults, serverID, order, i);
    LookupReports(karma, faults, serverID, order, i);
  }

  /** The lookup `scan` stopped at name `order[j]`: the first one whose
      lookup failed with an error other than "not found", whose error it
      reports; it looked up no name after it. */
  ghost predicate LookupStopsAt(karma: map<Key, int>, faults: Faults, serverID: string, order: seq<string>, j: nat, scan: Scan) {
    && j < |order|
    && scan.progress.Aborted?
    && EntityLookup(karma, faults, (serverID, order[j])) == Other(scan.progress.error)
    && (forall i :: 0 <= i < j ==> !EntityLookup(karma, faults, (serverID, order[i])).Other?)
    && |scan.calls| == j + 1
    && (forall i :: 0 <= i <= j ==> scan.calls[i] == Call.GetEntity((serverID, order[i])))
  }

  /** The lookup went through the first `j` names and stopped at the next one. */
  ghost predicate LookupStopsNext(karma: map<Key, int>, faults: Faults, serverID: string, order: seq<string>, j: nat) {
    && j < |order|
    && LookupRun(karma, faults, serverID, order, j).progress.Running?
    && LookupRun(karma, faults, serverID, order, j + 1).progress.Aborted?
  }

  /** There is a first name at which the lookup stops. */
  lemma {:induction false} FirstLookupAbort(karma: map<Key, int>, faults: Faults, serverID: string, order: seq<string>, i: nat)
    requires i <= |order| && LookupRun(karma, faults, serverID, order, i).progress.Aborted?
    ensures exists j: nat :: j < i && LookupStopsNext(karma, faults, serverID, order, j)
    decreases i
  {
    if LookupRun(karma, faults, serverID, order, i - 1).progress.Aborted? {
      FirstLookupAbort(karma, faults, serverID, order, i - 1);
    } else {
      assert LookupStopsNext(karma, faults, serverID, order, i - 1);
    }
  }

  /** A bulk lookup that stopped within `i` names did so as LookupStopsAt describes. */
  lemma LookupAborts(karma: map<Key, int>, faults: Faults, serverID: string, order: seq<string>, i: nat)
    requires i <= |order| && LookupRun(karma, faults, serverID, order, i).progress.Aborted?
    ensures exists j :: LookupStopsAt(karma, faults, serverID, order, j, LookupRun(karma, faults, serverID, order, i))
  {
    FirstLookupAbort(karma, faults, serverID, order, i);
    var j: nat :| j < i && LookupStopsNext(karma, faults, serverID, order, j);
    LookupStopsAtFirst(karma, faults, serverID, order, j);
    LookupAbortIsFinal(karma, faults, serverID, order, j + 1, i);
    assert LookupStopsAt(karma, faults, serverID, order, j, LookupRun(karma, faults, serverID, order, i));
  }

  /** The lookup ran through the first `j` names and stopped at the next one. */
  lemma LookupStopsAtFirst(karma: map<Key, int>, faults: Faults, serverID: string, order: seq<string>, j: nat)
    requires LookupStopsNext(karma, faults, serverID, order, j)
    ensures LookupStopsAt(karma, faults, serverID, order, j, LookupRun(karma, faults, serverID, order, j + 1))
  {
    var prev := LookupRun(karma, faults, serverID, order, j);
    LookupCalls(karma, faults, serverID, order, j);
    LookupReports(karma, faults, serverID, order, j);
    assert LookupRun(karma, faults, serverID, order, j + 1).calls == prev.calls + [Call.GetEntity((serverID, order[j]))];
  }

  /** Over a whole key set, the lookup succeeds exactly when no requested
      name fails with an error other than "not found". */
  lemma GetLevelsSucceedsWhen(karma: map<Key, int>, faults: Faults, serverID: string, bumps: map<string, int>, order: seq<string>)
    requires Enumerates(order, bumps.Keys)
    ensures var scan := LookupRun(karma, faults, serverID, order, |order|);
      scan.progress.Running? <==> forall n :: n in bumps ==> !EntityLookup(karma, faults, (serverID, n)).Other?
  {
    var scan := LookupRun(karma, faults, serverID, order, |order|);
    if scan.progress.Running? {
      LookupSuccess(karma, faults, serverID, order, |order|);
    } else {
      LookupAborts(karma, faults, serverID, order, |order|);
      var j: nat :| LookupStopsAt(karma, faults, serverID, order, j, scan);
      assert order[j] in bumps;
    }
  }

  /** A lookup over a whole key set that succeeds reports one entry per
      requested name: its karma, or 0 for a missing entity. */
  lemma GetLevelsReportsAll(karma: map<Key, int>, faults: Faults, serverID: string, bumps: map<string, int>, order: seq<string>)
    requires Enumerates(order, bumps.Keys)
    ensures var scan := LookupRun(karma, faults, serverID, order, |order|);
      scan.progress.Running? ==>
        && scan.progress.levels.Keys == bumps.Keys
        && (forall n :: n in bumps ==>
              scan.progress.levels[n] == match EntityLookup(karma, faults, (serverID, n)) { case Found(k) => k case _ => 0 })
        && (forall n :: n in bumps && (serverID, n) !in faults.getEntity ==> scan.progress.levels[n] == KarmaOf(karma, (serverID, n)))
  {
    if LookupRun(karma, faults, serverID, order, |order|).progress.Running? {
      LookupSuccess(karma, faults, serverID, order, |order|);
    }
  }

  /** Over a whole key set: the lookup succeeds exactly when no requested
      name fails with an error other than "not found", and then it reports
      one entry per requested name, its karma, 0 for a missing entity. */
  lemma GetLevelsExactly(karma: map<Key, int>, faults: Faults, serverID: string, bumps: map<string, int>, order: seq<string>)
    requires Enumerates(order, bumps.Keys)
    ensures var scan := LookupRun(karma, faults, serverID, order, |order|);
      scan.progress.Running? <==> forall n :: n in bumps ==> !EntityLookup(karma, faults, (serverID, n)).Other?
    ensures var scan := LookupRun(karma, faults, serverID, order, |order|);
      scan.progress.Running? ==>
        && scan.progress.levels.Keys == bumps.Keys
        && (forall n :: n in bumps ==>
              scan.progress.levels[n] == match EntityLookup(karma, faults, (serverID, n)) { case Found(k) => k case _ => 0 })
        && (forall n :: n in bumps && (serverID, n) !in faults.getEntity ==> scan.progress.levels[n] == KarmaOf(karma, (serverID, n)))
  {
    GetLevelsSucceedsWhen(karma, faults, serverID, bumps, order);
    GetLevelsReportsAll(karma, faults, serverID, bumps, order);
  }

  method GetLevels(store: Store, serverID: string, bumps: map<string, int>, order: seq<string>)
    returns (r: GetLevelsResult)
    requires Enumerates(order, bumps.Keys)
    modifies store`log
    ensures var scan := LookupRun(store.karma, store.faults, serverID, order, |order|);
      && store.log == old(store.log) + scan.calls
      && r == LevelsResult(scan.progress)
  {
    var levels: map<string, int> := map[];
    for i := 0 to |order|
      invariant var scan := LookupRun(store.karma, store.faults, serverID, order, i);
        && store.log == old(store.log) + scan.calls
        && scan.progress == Running(levels)
    {
      var name := order[i];
      var entt := store.GetEntity(serverID, name);
      if entt.Other? {
        LookupAbortIsFinal(store.karma, store.faults, serverID, order, i + 1, |order|);
        return GetLevelsResult(None, Some(entt.error));
      }
      levels := levels[name := if entt.Found? then entt.karma else 0];
    }
    r := GetLevelsResult(Some(levels), None);
  }

  /** Once the lookup has stopped, the names after it change nothing. */
  lemma {:induction false} LookupAbortIsFinal(karma: map<Key, int>, faults: Faults, serverID: string, order: seq<string>, i: nat, k: nat)
    requires i <= k <= |order|
    requires LookupRun(karma, faults, serverID, order, i).progress.Aborted?
    ensures LookupRun(karma, faults, serverID, order, k) == LookupRun(karma, faults, serverID, order, i)
    decreases k
  {
    if i < k {
      LookupAbortIsFinal(karma, faults, serverID, order, i, k - 1);
    }
  }

  // ---------------------------------------------------------------------------
  // GetLeaderboard

  /** Each entity as a leaderboard entry, in the same order. */
  function Project(entities: seq<Entity>): seq<LeaderboardEntry>
    decreases |entities|
  {
    if entities == [] then []
    else
      var last := entities[|entities| - 1];
      Project(entities[..|entities| - 1]) + [LeaderboardEntry(last.name, last.karma)]
  }

  /** The projection keeps length and order: entry i carries entity i's name and karma. */
  lemma {:induction false} ProjectKeepsOrder(entities: seq<Entity>)
    ensures |Project(entities)| == |entities|
    ensures forall i :: 0 <= i < |entities| ==> Project(entities)[i] == LeaderboardEntry(entities[i].name, entities[i].karma)
    decreases |entities|
  {
    if entities != [] {
      ProjectKeepsOrder(entities[..|entities| - 1]);
    }
  }

  /** The record the goroutine sends. */
  function LeaderboardResult(board: Result<seq<Entity>>): (r: GetLeaderboardResult)
    ensures r.entries.Some? != r.err.Some?
    ensures r.entries.Some? <==> board.Ok?
    ensures board.Err? ==> r.err == Some(board.error)
    ensures board.Ok? ==> r.entries == Some(Project(board.value))
  {
    match board
    case Err(e) => GetLeaderboardResult(None, Some(e))
    case Ok(entities) => GetLeaderboardResult(Some(Project(entities)), None)
  }

  /** With a sound ranking, a successful leaderboard has at most `limit`
      entries with distinct names, each carrying the karma stored for that
      name on the server, ordered by karma: highest first for the top board,
      lowest first for the bottom one. No entities give an empty list. */
  lemma LeaderboardSound(karma: map<Key, int>, rank: Ranking, serverID: string, top: bool, limit: nat)
    requires SoundRanking(rank)
    ensures var entries := Project(rank(karma, serverID, top, limit));
      && |entries| <= limit
      && (limit == 0 ==> entries == [])
      && (forall i :: 0 <= i < |entries| ==>
            (serverID, entries[i].name) in karma && karma[(serverID, entries[i].name)] == entries[i].karma)
      && (forall i, j :: 0 <= i < j < |entries| ==> entries[i].name != entries[j].name)
      && (forall i, j :: 0 <= i < j < |entries| ==>
            if top then entries[i].karma >= entries[j].karma else entries[i].karma <= entries[j].karma)
  {
    var entities := rank(karma, serverID, top, limit);
    assert Ranked(entities, karma, serverID, top, limit);
    ProjectKeepsOrder(entities);
  }

  method GetLeaderboard(store: Store, serverID: string, top: bool, limit: nat) returns (r: GetLeaderboardResult)
    modifies store`log
    ensures store.log == old(store.log) + [if top then Call.GetTopEntities(serverID, limit) else Call.GetBotEntities(serverID, limit)]
    ensures r == LeaderboardResult(store.Board(serverID, top, limit))
  {
    var board: Result<seq<Entity>>;
    if top {
      board := store.GetTopEntities(serverID, limit);
    } else {
      board := store.GetBotEntities(serverID, limit);
    }
    if board.Err? {
      return GetLeaderboardResult(None, Some(board.error));
    }
    var entities := board.value;
    var entries: seq<LeaderboardEntry> := [];
    for i := 0 to |entities|
      invariant entries == Project(entities[..i])
    {
      assert entities[..i + 1][..i] == entities[..i];
      entries := entries + [LeaderboardEntry(entities[i].name, entities[i].karma)];
    }
    assert entities[..|entities|] == entities;
    r := GetLeaderboardResult(Some(entries), None);
  }

  // ---------------------------------------------------------------------------
  // SetAnnounce

  /** Setting the announce flag: a create call whose error is dropped, then a
      write of NoAnnounce = !on, whose error is the result. */
  function AnnounceEffect(noAnnounce: map<string, bool>, faults: Faults, serverID: string, on: bool): (r: (map<string, bool>, Option<Error>))
    ensures r.1 == None <==> serverID !in faults.putConfig && (serverID in noAnnounce || serverID !in faults.createConfig)
    ensures serverID in faults.putConfig ==> r.1 == Some(faults.putConfig[serverID])
    ensures r.1 == None ==> serverID in r.0 && r.0[serverID] == !on
    ensures serverID !in faults.putConfig && r.1 != None ==> r.1 == Some(NoRows)
    ensures r.1 != None ==>
      r.0 == if serverID !in noAnnounce && serverID !in faults.createConfig then noAnnounce[serverID := false] else noAnnounce
    ensures forall s :: s != serverID ==> (s in r.0 <==> s in noAnnounce) && (s in noAnnounce ==> r.0[s] == noAnnounce[s])
  {
    var created := CreateConfigEffect(noAnnounce, faults, serverID).0;
    PutConfigEffect(created, faults, Config(serverID, !on))
  }

  /** A successful SetAnnounce followed by GetConfig reads NoAnnounce == !on. */
  lemma AnnounceThenGetConfig(noAnnounce: map<string, bool>, faults: Faults, serverID: string, on: bool)
    requires AnnounceEffect(noAnnounce, faults, serverID, on).1 == None
    requires serverID !in faults.getConfig
    ensures ConfigLookup(AnnounceEffect(noAnnounce, faults, serverID, on).0, faults, serverID) == (Config(serverID, !on), None)
  {
  }

  method SetAnnounce(store: Store, serverID: string, on: bool) returns (err: Option<Error>)
    modifies store`noAnnounce, store`log
    ensures (store.noAnnounce, err) == AnnounceEffect(old(store.noAnnounce), store.faults, serverID, on)
    ensures store.log == old(store.log) + [Call.CreateConfig(serverID), Call.PutConfig(Config(serverID, !on))]
  {
    var _ := store.CreateConfig(serverID);
    err := store.PutConfig(Config(serverID, !on));
  }
}
