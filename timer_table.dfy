/**
 * The system's timer registry as a value: for each owning pid, the list of its
 * active timers, plus the owners in the order their entries were created (the
 * registry is an insertion-ordered dictionary, and `expire` walks it in that
 * order). Start, stop and the expiry sweep are functions on it; the System
 * class applies them to its field.
 */
module TimerTables {
  import opened Wrappers
  import opened Signals
  import opened Timers
  import opened SeqFacts

  datatype TimerTable = TimerTable(lists: map<string, seq<Timer>>, owners: seq<string>)

  /** The timers of `pid`, none when it has no entry. */
  function ListOf(tt: TimerTable, pid: string): seq<Timer>
  {
    if pid in tt.lists then tt.lists[pid] else []
  }

  predicate NoDuplicates(owners: seq<string>)
  {
    forall i, j :: 0 <= i < j < |owners| ==> owners[i] != owners[j]
  }

  /** No two timers of a list are equal by (class, correlator). */
  predicate DistinctTimers(ts: seq<Timer>)
  {
    forall i, j :: 0 <= i < j < |ts| ==> !SameTimer(ts[i], ts[j])
  }

  predicate OwnedBy(ts: seq<Timer>, pid: string)
  {
    forall i :: 0 <= i < |ts| ==> ts[i].src == Some(pid)
  }

  /** A list as the registry keeps it under `pid`. */
  predicate ListValid(ts: seq<Timer>, pid: string)
  {
    OwnedBy(ts, pid) && DistinctTimers(ts)
  }

  /**
   * The registry's invariant: the owner order lists each key once; no list is empty
   * (an emptied list is deleted); every timer is filed under its own source pid; and
   * a list never holds two equal timers (start removes an equal one first); no timer is
   * filed under the empty pid (start refuses a timer without a source).
   */
  ghost predicate Valid(tt: TimerTable)
  {
    && NoDuplicates(tt.owners)
    && (forall p :: p in tt.lists <==> p in tt.owners)
    && (forall p :: p in tt.lists ==> p != "" && tt.lists[p] != [] && ListValid(tt.lists[p], p))
  }

  /** The empty registry. */
  function Empty(): (tt: TimerTable)
    ensures Valid(tt) && forall p :: ListOf(tt, p) == []
  {
    TimerTable(map[], [])
  }

  /** The owner order without `p`. */
  function RemoveOwner(owners: seq<string>, p: string): (r: seq<string>)
    ensures forall q :: q in r <==> q in owners && q != p
    ensures NoDuplicates(owners) ==> NoDuplicates(r)
    ensures p !in owners ==> r == owners
  {
    if owners == [] then []
    else if owners[0] == p then RemoveOwner(owners[1..], p)
    else
      var rest := RemoveOwner(owners[1..], p);
      assert NoDuplicates(owners) ==> NoDuplicates(owners[1..]) && owners[0] !in rest;
      [owners[0]] + rest
  }

  /**
   * Sets `p`'s list to `ts`: an empty list deletes the entry (and its place in the
   * order); a new owner is appended at the end of the order.
   */
  function Put(tt: TimerTable, p: string, ts: seq<Timer>): (r: TimerTable)
    ensures forall q :: ListOf(r, q) == if q == p then ts else ListOf(tt, q)
    ensures p in tt.lists && ts != [] ==> r.owners == tt.owners
  {
    if ts == [] then TimerTable(tt.lists - {p}, RemoveOwner(tt.owners, p))
    else if p in tt.lists then TimerTable(tt.lists[p := ts], tt.owners)
    else TimerTable(tt.lists[p := ts], tt.owners + [p])
  }

  lemma PutValid(tt: TimerTable, p: string, ts: seq<Timer>)
    requires Valid(tt) && ListValid(ts, p) && (ts == [] || p != "")
    ensures Valid(Put(tt, p, ts))
  {
  }

  /** The index of the first timer equal to `t`, or |ts| when there is none. */
  function FirstSame(ts: seq<Timer>, t: Timer): (i: nat)
    ensures i <= |ts|
    ensures forall j :: 0 <= j < i ==> !SameTimer(ts[j], t)
    ensures i < |ts| ==> SameTimer(ts[i], t)
  {
    if ts == [] then 0
    else if SameTimer(ts[0], t) then 0
    else 1 + FirstSame(ts[1..], t)
  }

  /** `list.remove(t)` guarded by `t in list`: drops the first timer equal to `t`, if any. */
  function RemoveFirstSame(ts: seq<Timer>, t: Timer): (r: seq<Timer>)
  {
    var i := FirstSame(ts, t);
    if i < |ts| then ts[..i] + ts[i + 1..] else ts
  }

  lemma RemoveFirstSameValid(ts: seq<Timer>, t: Timer, p: string)
    requires ListValid(ts, p)
    ensures ListValid(RemoveFirstSame(ts, t), p)
    ensures forall k :: 0 <= k < |RemoveFirstSame(ts, t)| ==> !SameTimer(RemoveFirstSame(ts, t)[k], t)
    ensures |RemoveFirstSame(ts, t)| == if exists k :: 0 <= k < |ts| && SameTimer(ts[k], t) then |ts| - 1 else |ts|
  {
    var i := FirstSame(ts, t);
    var r := RemoveFirstSame(ts, t);
    if i < |ts| {
      forall k | 0 <= k < |r| ensures !SameTimer(r[k], t) {
        if k >= i {
          assert r[k] == ts[k + 1];
          assert !SameTimer(ts[i], ts[k + 1]);
        }
      }
    }
  }

  /**
   * `stopTimer(t)`: under the timer's source pid, removes the first timer equal to `t` and
   * deletes the entry once it is empty. Returns whether something was removed.
   */
  function Stop(tt: TimerTable, t: Timer): (r: (TimerTable, bool))
    ensures r.1 <==> t.src.Some? && t.src.value != "" &&
                     exists k :: 0 <= k < |ListOf(tt, t.src.value)| && SameTimer(ListOf(tt, t.src.value)[k], t)
    ensures !r.1 ==> r.0 == tt
    ensures r.1 ==> forall q :: ListOf(r.0, q) == if q == t.src.value then RemoveFirstSame(ListOf(tt, q), t) else ListOf(tt, q)
  {
    if t.src.None? || t.src.value == "" then (tt, false)
    else
      var p := t.src.value;
      if p !in tt.lists then (tt, false)
      else
        var i := FirstSame(tt.lists[p], t);
        if i == |tt.lists[p]| then (tt, false)
        else
          assert ListOf(tt, p) == tt.lists[p] && SameTimer(ListOf(tt, p)[i], t);
          (Put(tt, p, RemoveFirstSame(tt.lists[p], t)), true)
  }

  lemma StopValid(tt: TimerTable, t: Timer)
    requires Valid(tt)
    ensures Valid(Stop(tt, t).0)
  {
    if Stop(tt, t).1 {
      var p := t.src.value;
      RemoveFirstSameValid(tt.lists[p], t, p);
      PutValid(tt, p, RemoveFirstSame(tt.lists[p], t));
    }
  }

  /**
   * `startTimer(t)` for a timer with a source pid: stops an equal timer first, then appends `t`
   * to the end of the owner's list.
   */
  function Start(tt: TimerTable, t: Timer): (r: TimerTable)
    requires t.src.Some? && t.src.value != ""
    ensures forall q :: q != t.src.value ==> ListOf(r, q) == ListOf(tt, q)
    ensures ListOf(r, t.src.value) == RemoveFirstSame(ListOf(tt, t.src.value), t) + [t]
  {
    var p := t.src.value;
    var stopped := Stop(tt, t).0;
    assert ListOf(stopped, p) == RemoveFirstSame(ListOf(tt, p), t) by {
      if !Stop(tt, t).1 {
        var ts := ListOf(tt, p);
        assert FirstSame(ts, t) == |ts|;
      }
    }
    Put(stopped, p, ListOf(stopped, p) + [t])
  }

  /**
   * Starting a timer keeps the registry valid and leaves exactly one timer equal to it in
   * its owner's list, at the end, with the owner's other timers in their previous order.
   */
  lemma StartKeepsOneEqual(tt: TimerTable, t: Timer)
    requires Valid(tt) && t.src.Some? && t.src.value != ""
    ensures Valid(Start(tt, t))
    ensures var ts := ListOf(Start(tt, t), t.src.value);
      ts != [] && ts[|ts| - 1] == t && forall k :: 0 <= k < |ts| - 1 ==> !SameTimer(ts[k], t)
  {
    var p := t.src.value;
    var stopped := Stop(tt, t).0;
    StopValid(tt, t);
    var rest := ListOf(stopped, p);
    assert rest == RemoveFirstSame(ListOf(tt, p), t);
    assert ListValid(ListOf(tt, p), p);
    RemoveFirstSameValid(ListOf(tt, p), t, p);
    var ts := rest + [t];
    forall i, j | 0 <= i < j < |ts| ensures !SameTimer(ts[i], ts[j]) {
      if j == |ts| - 1 {
        assert !SameTimer(rest[i], t);
      } else {
        assert ts[i] == rest[i] && ts[j] == rest[j];
      }
    }
    assert ListValid(ts, p);
    PutValid(stopped, p, ts);
  }

  // ---------------------------------------------------------------------------
  // The expiry sweep

  /** Every timer of a list with its observed time set to `now`. */
  function ObserveList(ts: seq<Timer>, now: int): (r: seq<Timer>)
    ensures |r| == |ts|
    ensures forall i :: 0 <= i < |ts| ==> r[i] == Expire(ts[i], now)
  {
    if ts == [] then [] else [Expire(ts[0], now)] + ObserveList(ts[1..], now)
  }

  /** The registry after `timer.expire(now)` on every timer. */
  function Observe(tt: TimerTable, now: int): (r: TimerTable)
    ensures r.owners == tt.owners && r.lists.Keys == tt.lists.Keys
    ensures forall p :: ListOf(r, p) == ObserveList(ListOf(tt, p), now)
  {
    TimerTable(map p | p in tt.lists :: ObserveList(tt.lists[p], now), tt.owners)
  }

  lemma ObserveListValid(ts: seq<Timer>, p: string, now: int)
    requires ListValid(ts, p)
    ensures ListValid(ObserveList(ts, now), p)
  {
    var os := ObserveList(ts, now);
    forall i, j | 0 <= i < j < |os| ensures !SameTimer(os[i], os[j]) {
      assert !SameTimer(ts[i], ts[j]);
    }
  }

  lemma ObserveValid(tt: TimerTable, now: int)
    requires Valid(tt)
    ensures Valid(Observe(tt, now))
  {
    forall p | p in tt.lists {
      ObserveListValid(tt.lists[p], p, now);
    }
  }

  /** The registry part-way through the sweep's first pass: the owners `os` have been observed. */
  function ObserveOwners(tt: TimerTable, os: seq<string>, now: int): (r: TimerTable)
    requires forall q :: q in os ==> q in tt.lists
    ensures r.owners == tt.owners && r.lists.Keys == tt.lists.Keys
    ensures forall q :: ListOf(r, q) == if q in os then ObserveList(ListOf(tt, q), now) else ListOf(tt, q)
    decreases |os|
  {
    if os == [] then tt
    else
      var last := os[|os| - 1];
      var prior := ObserveOwners(tt, os[..|os| - 1], now);
      assert forall q :: q in os <==> q in os[..|os| - 1] || q == last;
      TimerTable(prior.lists[last := ObserveList(tt.lists[last], now)], prior.owners)
  }

  lemma ObserveOwnersValid(tt: TimerTable, os: seq<string>, now: int)
    requires Valid(tt) && forall q :: q in os ==> q in tt.lists
    ensures Valid(ObserveOwners(tt, os, now))
  {
    var r := ObserveOwners(tt, os, now);
    forall p | p in r.lists ensures p != "" && r.lists[p] != [] && ListValid(r.lists[p], p) {
      assert ListOf(r, p) == r.lists[p] && ListOf(tt, p) == tt.lists[p];
      ObserveListValid(tt.lists[p], p, now);
    }
  }

  lemma ObserveOwnersAt(tt: TimerTable, os: seq<string>, now: int, p: string)
    requires forall q :: q in os ==> q in tt.lists
    requires p in os
    ensures p in ObserveOwners(tt, os, now).lists
    ensures ObserveOwners(tt, os, now).lists[p] == ObserveList(tt.lists[p], now)
  {
    var r := ObserveOwners(tt, os, now);
    assert ListOf(r, p) == ObserveList(ListOf(tt, p), now);
  }

  /**
   * One more step of the first pass: observing the next owner `os[i]` (still unobserved) puts
   * its observed list in its entry and adds its fired timers to the collected ones.
   */
  lemma ObserveOwnersStep(tt: TimerTable, os: seq<string>, i: nat, now: int)
    requires i < |os| && NoDuplicates(os)
    requires forall q :: q in os ==> q in tt.lists
    ensures var prior := ObserveOwners(tt, os[..i], now);
      && os[i] in prior.lists && prior.lists[os[i]] == tt.lists[os[i]]
      && ObserveOwners(tt, os[..i + 1], now)
         == TimerTable(prior.lists[os[i] := ObserveList(tt.lists[os[i]], now)], prior.owners)
    ensures Due(Observe(tt, now), os[..i + 1]) == Due(Observe(tt, now), os[..i]) + Fired(ObserveList(tt.lists[os[i]], now))
  {
    var p := os[i];
    assert os[..i + 1][..i] == os[..i];
    assert p !in os[..i];
    var prior := ObserveOwners(tt, os[..i], now);
    assert ListOf(prior, p) == ListOf(tt, p);
    assert os[..i + 1] == os[..i] + [p];
    DueSnoc(Observe(tt, now), os[..i], p);
    assert ListOf(Observe(tt, now), p) == ObserveList(tt.lists[p], now);
  }

  /** The state a walk over every owner ends in: the observed registry, and its due timers. */
  lemma ObserveWalkDone(tt: TimerTable, now: int, owners: seq<string>, i: nat, table: TimerTable, expired: seq<Timer>)
    requires forall p :: p in tt.lists <==> p in tt.owners
    requires owners == tt.owners && i == |owners|
    requires table == ObserveOwners(tt, owners[..i], now)
    requires expired == Due(Observe(tt, now), owners[..i])
    ensures table == Observe(tt, now) && expired == Due(table, table.owners)
  {
    assert tt.owners[..|tt.owners|] == tt.owners;
    ObserveOwnersAll(tt, now);
  }

  /** Once every owner has been observed, the part-way registry is the observed one. */
  lemma ObserveOwnersAll(tt: TimerTable, now: int)
    requires forall p :: p in tt.lists <==> p in tt.owners
    ensures ObserveOwners(tt, tt.owners, now) == Observe(tt, now)
  {
    var a := ObserveOwners(tt, tt.owners, now);
    var b := Observe(tt, now);
    assert forall p | p in a.lists :: a.lists[p] == b.lists[p] by {
      forall p | p in a.lists ensures a.lists[p] == b.lists[p] {
        assert p in tt.owners;
        ObserveOwnersAt(tt, tt.owners, now, p);
      }
    }
    SameMaps(a.lists, b.lists);
  }

  lemma SameMaps(a: map<string, seq<Timer>>, b: map<string, seq<Timer>>)
    requires a.Keys == b.Keys
    requires forall p | p in a :: a[p] == b[p]
    ensures a == b
  {
  }

  /** The timers of a list that have fired, in list order. */
  function Fired(ts: seq<Timer>): (r: seq<Timer>)
    ensures |r| <= |ts|
  {
    if ts == [] then []
    else if Expired(ts[0]) then [ts[0]] + Fired(ts[1..])
    else Fired(ts[1..])
  }

  /** The timers of a list that have not fired, in list order. */
  function Unfired(ts: seq<Timer>): (r: seq<Timer>)
    ensures |r| <= |ts|
  {
    if ts == [] then []
    else if Expired(ts[0]) then Unfired(ts[1..])
    else [ts[0]] + Unfired(ts[1..])
  }

  /** `Fired` keeps exactly the fired timers of the list. */
  lemma {:induction false} FiredMembers(ts: seq<Timer>)
    ensures forall x :: x in Fired(ts) <==> x in ts && Expired(x)
  {
    if ts != [] {
      FiredMembers(ts[1..]);
      assert ts == [ts[0]] + ts[1..];
    }
  }

  /** `Unfired` keeps exactly the timers of the list that have not fired. */
  lemma {:induction false} UnfiredMembers(ts: seq<Timer>)
    ensures forall x :: x in Unfired(ts) <==> x in ts && !Expired(x)
  {
    if ts != [] {
      UnfiredMembers(ts[1..]);
      assert ts == [ts[0]] + ts[1..];
    }
  }

  /** After observing `now`, the fired timers are exactly those with a deadline at or before `now`. */
  lemma {:induction false} ObservedSplit(ts: seq<Timer>, now: int)
    ensures forall x :: x in Fired(ObserveList(ts, now)) <==>
      x in ObserveList(ts, now) && Deadline(x) <= now
    ensures forall x :: x in Unfired(ObserveList(ts, now)) <==>
      x in ObserveList(ts, now) && Deadline(x) > now
  {
    FiredMembers(ObserveList(ts, now));
    UnfiredMembers(ObserveList(ts, now));
    forall x | x in ObserveList(ts, now) ensures Expired(x) <==> Deadline(x) <= now {
      var i :| 0 <= i < |ts| && ObserveList(ts, now)[i] == x;
      assert x == Expire(ts[i], now);
    }
  }

  /** The list of fired timers `expire` collects: owner by owner in registry order, each list in order. */
  function Due(tt: TimerTable, owners: seq<string>): seq<Timer>
  {
    if owners == [] then [] else Fired(ListOf(tt, owners[0])) + Due(tt, owners[1..])
  }

  lemma {:induction false} DueSnoc(tt: TimerTable, os: seq<string>, o: string)
    ensures Due(tt, os + [o]) == Due(tt, os) + Fired(ListOf(tt, o))
    decreases |os|
  {
    if os == [] {
      assert [] + [o] == [o];
    } else {
      assert (os + [o])[1..] == os[1..] + [o];
      DueSnoc(tt, os[1..], o);
    }
  }

  lemma {:induction false} FiredSnoc(ts: seq<Timer>, x: Timer)
    ensures Fired(ts + [x]) == Fired(ts) + if Expired(x) then [x] else []
    decreases |ts|
  {
    if ts == [] {
      assert [] + [x] == [x];
    } else {
      assert (ts + [x])[1..] == ts[1..] + [x];
      FiredSnoc(ts[1..], x);
    }
  }

  /** `stopTimer` on each collected timer, in order. */
  function StopAll(tt: TimerTable, ts: seq<Timer>): TimerTable
    decreases |ts|
  {
    if ts == [] then tt else StopAll(Stop(tt, ts[0]).0, ts[1..])
  }

  /** The registry after `expire(now)`. */
  function Swept(tt: TimerTable, now: int): TimerTable
  {
    var observed := Observe(tt, now);
    StopAll(observed, Due(observed, observed.owners))
  }

  lemma {:induction false} StopAllAppend(tt: TimerTable, a: seq<Timer>, b: seq<Timer>)
    ensures StopAll(tt, a + b) == StopAll(StopAll(tt, a), b)
    decreases |a|
  {
    if a == [] {
      assert a + b == b;
    } else {
      assert a + b != [] && (a + b)[0] == a[0];
      assert (a + b)[1..] == a[1..] + b;
      StopAllAppend(Stop(tt, a[0]).0, a[1..], b);
    }
  }

  lemma StopAllSnoc(tt: TimerTable, ts: seq<Timer>, x: Timer)
    ensures StopAll(tt, ts + [x]) == Stop(StopAll(tt, ts), x).0
  {
    StopAllAppend(tt, ts, [x]);
  }

  lemma {:induction false} UnfiredValid(ts: seq<Timer>, p: string)
    requires ListValid(ts, p)
    ensures ListValid(Unfired(ts), p)
    ensures forall x :: x in Unfired(ts) ==> x in ts
    decreases |ts|
  {
    if ts != [] {
      UnfiredValid(ts[1..], p);
      var r := Unfired(ts);
      if !Expired(ts[0]) {
        var tail := Unfired(ts[1..]);
        assert r == [ts[0]] + tail;
        forall i, j | 0 <= i < j < |r| ensures !SameTimer(r[i], r[j]) {
          if i == 0 {
            assert r[j] in ts[1..];
            var k :| 0 <= k < |ts[1..]| && ts[1..][k] == r[j];
            assert !SameTimer(ts[0], ts[k + 1]);
          } else {
            assert r[i] == tail[i - 1] && r[j] == tail[j - 1];
          }
        }
      }
    }
  }

  lemma PutSame(tt: TimerTable, p: string, a: seq<Timer>, b: seq<Timer>)
    requires p in tt.lists && a != []
    ensures Put(Put(tt, p, a), p, b) == Put(tt, p, b)
  {
  }

  lemma PutUnchanged(tt: TimerTable, p: string)
    requires p in tt.lists && tt.lists[p] != []
    ensures Put(tt, p, tt.lists[p]) == tt
  {
  }

  /** Stopping a timer of a valid list removes that very entry, wherever it sits. */
  lemma StopAt(tt: TimerTable, p: string, pre: seq<Timer>, x: Timer, tail: seq<Timer>)
    requires Valid(tt) && p in tt.lists && tt.lists[p] == pre + [x] + tail
    ensures Stop(tt, x) == (Put(tt, p, pre + tail), true)
    ensures ListValid(pre + tail, p)
  {
    var ts := tt.lists[p];
    assert ListValid(ts, p);
    assert ts[|pre|] == x;
    assert x.src == Some(p);
    assert SameTimer(x, x);
    forall j | 0 <= j < |pre| ensures !SameTimer(ts[j], x) {
      assert !SameTimer(ts[j], ts[|pre|]);
    }
    assert FirstSame(ts, x) == |pre|;
    assert RemoveFirstSame(ts, x) == pre + tail;
    RemoveFirstSameValid(ts, x, p);
  }

  /**
   * Within one owner's list `pre + rest` where nothing in `pre` has fired, stopping the fired
   * timers of `rest` one by one leaves exactly `pre` followed by the unfired timers of `rest`.
   */
  lemma {:induction false} StopFiredOfOwner(tt: TimerTable, p: string, pre: seq<Timer>, rest: seq<Timer>)
    requires Valid(tt) && p in tt.lists && tt.lists[p] == pre + rest
    requires forall i :: 0 <= i < |pre| ==> !Expired(pre[i])
    ensures StopAll(tt, Fired(rest)) == Put(tt, p, pre + Unfired(rest))
    decreases |rest|, 1
  {
    if rest == [] {
      assert pre + Unfired(rest) == tt.lists[p];
      PutUnchanged(tt, p);
    } else if Expired(rest[0]) {
      StopFiredHead(tt, p, pre, rest);
    } else {
      KeepUnfiredHead(tt, p, pre, rest);
    }
  }

  /** The step of the sweep over one list where its next timer has fired: it is stopped. */
  lemma {:induction false} StopFiredHead(tt: TimerTable, p: string, pre: seq<Timer>, rest: seq<Timer>)
    requires Valid(tt) && p in tt.lists && tt.lists[p] == pre + rest
    requires forall i :: 0 <= i < |pre| ==> !Expired(pre[i])
    requires rest != [] && Expired(rest[0])
    ensures StopAll(tt, Fired(rest)) == Put(tt, p, pre + Unfired(rest))
    decreases |rest|, 0
  {
    var x := rest[0];
    var tail := rest[1..];
    assert rest == [x] + tail;
    assert tt.lists[p] == pre + [x] + tail;
    StopAt(tt, p, pre, x, tail);
    var next := Put(tt, p, pre + tail);
    PutValid(tt, p, pre + tail);
    assert Fired(rest) == [x] + Fired(tail);
    assert StopAll(tt, Fired(rest)) == StopAll(next, Fired(tail));
    assert Unfired(rest) == Unfired(tail);
    if pre + tail == [] {
      assert tail == [] && pre == [];
    } else {
      StopFiredOfOwner(next, p, pre, tail);
      PutSame(tt, p, pre + tail, pre + Unfired(tail));
    }
  }

  /** The step of the sweep over one list where its next timer has not fired: it stays. */
  lemma {:induction false} KeepUnfiredHead(tt: TimerTable, p: string, pre: seq<Timer>, rest: seq<Timer>)
    requires Valid(tt) && p in tt.lists && tt.lists[p] == pre + rest
    requires forall i :: 0 <= i < |pre| ==> !Expired(pre[i])
    requires rest != [] && !Expired(rest[0])
    ensures StopAll(tt, Fired(rest)) == Put(tt, p, pre + Unfired(rest))
    decreases |rest|, 0
  {
    var x := rest[0];
    var tail := rest[1..];
    var pre' := pre + [x];
    assert Fired(rest) == Fired(tail) by {
      assert [] + Fired(tail) == Fired(tail);
    }
    assert tt.lists[p] == pre' + tail by {
      assert rest == [x] + tail;
      AppendAssoc(pre, [x], tail);
    }
    assert forall i :: 0 <= i < |pre'| ==> !Expired(pre'[i]) by {
      forall i | 0 <= i < |pre'| ensures !Expired(pre'[i]) {
        if i < |pre| { assert pre'[i] == pre[i]; }
      }
    }
    StopFiredOfOwner(tt, p, pre', tail);
    assert pre' + Unfired(tail) == pre + Unfired(rest) by {
      assert Unfired(rest) == [x] + Unfired(tail);
      AppendAssoc(pre, [x], Unfired(tail));
    }
  }

  /** The owners in `owners` that are in `keep`, in their original order. */
  function Restrict(owners: seq<string>, keep: set<string>): (r: seq<string>)
    ensures forall q :: q in r <==> q in owners && q in keep
  {
    if owners == [] then []
    else if owners[0] in keep then [owners[0]] + Restrict(owners[1..], keep)
    else Restrict(owners[1..], keep)
  }

  lemma {:induction false} RestrictAfterRemove(owners: seq<string>, p: string, keep: set<string>)
    requires p !in keep
    ensures Restrict(RemoveOwner(owners, p), keep) == Restrict(owners, keep)
    decreases |owners|
  {
    if owners != [] { RestrictAfterRemove(owners[1..], p, keep); }
  }

  lemma {:induction false} RestrictAll(owners: seq<string>, keep: set<string>)
    requires forall q :: q in owners ==> q in keep
    ensures Restrict(owners, keep) == owners
    decreases |owners|
  {
    if owners != [] { RestrictAll(owners[1..], keep); }
  }

  lemma {:induction false} DueUnchanged(a: TimerTable, b: TimerTable, owners: seq<string>)
    requires forall q :: q in owners ==> ListOf(a, q) == ListOf(b, q)
    ensures Due(a, owners) == Due(b, owners)
    decreases |owners|
  {
    if owners != [] { DueUnchanged(a, b, owners[1..]); }
  }

  /** Sweeping one owner: its list keeps its unfired timers, or the entry goes when none is left. */
  lemma SweepOwner(tt: TimerTable, o: string)
    requires Valid(tt) && o in tt.lists
    ensures var next := Put(tt, o, Unfired(tt.lists[o]));
      && StopAll(tt, Fired(tt.lists[o])) == next
      && Valid(next)
      && next.lists.Keys <= tt.lists.Keys
      && (Unfired(tt.lists[o]) == [] ==> o !in next.lists && next.owners == RemoveOwner(tt.owners, o))
      && (Unfired(tt.lists[o]) != [] ==> next.owners == tt.owners)
  {
    var ts := tt.lists[o];
    assert ts == [] + ts;
    StopFiredOfOwner(tt, o, [], ts);
    assert [] + Unfired(ts) == Unfired(ts);
    UnfiredValid(ts, o);
    PutValid(tt, o, Unfired(ts));
  }

  /** Stopping the due timers of `os` is sweeping its first owner, then stopping the due timers of the rest. */
  lemma StopDueFirstOwner(tt: TimerTable, os: seq<string>)
    requires Valid(tt) && NoDuplicates(os) && os != []
    requires forall q :: q in os ==> q in tt.lists
    ensures var next := Put(tt, os[0], Unfired(tt.lists[os[0]]));
      && StopAll(tt, Due(tt, os)) == StopAll(next, Due(next, os[1..]))
      && NoDuplicates(os[1..]) && forall q :: q in os[1..] ==> q in next.lists
  {
    var o, rest := os[0], os[1..];
    var ts := tt.lists[o];
    var next := Put(tt, o, Unfired(ts));
    TailOwners(os);
    assert StopAll(tt, Fired(ts)) == next by {
      SweepOwner(tt, o);
    }
    assert StopAll(tt, Due(tt, os)) == StopAll(StopAll(tt, Fired(ts)), Due(tt, rest)) by {
      assert Due(tt, os) == Fired(ts) + Due(tt, rest);
      StopAllAppend(tt, Fired(ts), Due(tt, rest));
    }
    assert Due(tt, rest) == Due(next, rest) by {
      DueUnchanged(tt, next, rest);
    }
    forall q | q in rest ensures q in next.lists {
      assert q != o;
    }
  }

  /** The owners after the first one: still each once, and none of them is the first. */
  lemma TailOwners(os: seq<string>)
    requires NoDuplicates(os) && os != []
    ensures NoDuplicates(os[1..]) && os[0] !in os[1..]
  {
    forall k | 0 <= k < |os[1..]| ensures os[1..][k] != os[0] {
      assert os[1..][k] == os[k + 1];
    }
  }

  /**
   * Stopping every fired timer of the owners `os` (each once, all registered) leaves each of
   * them exactly its unfired timers and every other owner untouched; owners whose lists
   * empty out lose their place in the order, the rest keep theirs.
   */
  lemma {:induction false} StopDueOwners(tt: TimerTable, os: seq<string>)
    requires Valid(tt) && NoDuplicates(os)
    requires forall q :: q in os ==> q in tt.lists
    ensures var r := StopAll(tt, Due(tt, os));
      && Valid(r)
      && (forall q :: ListOf(r, q) == if q in os then Unfired(ListOf(tt, q)) else ListOf(tt, q))
      && r.owners == Restrict(tt.owners, r.lists.Keys)
      && r.lists.Keys <= tt.lists.Keys
    decreases |os|
  {
    if os == [] {
      RestrictAll(tt.owners, tt.lists.Keys);
    } else {
      var o, rest := os[0], os[1..];
      var ts := tt.lists[o];
      var next := Put(tt, o, Unfired(ts));
      var r := StopAll(tt, Due(tt, os));
      SweepOwner(tt, o);
      StopDueFirstOwner(tt, os);
      StopDueOwners(next, rest);
      forall q ensures ListOf(r, q) == if q in os then Unfired(ListOf(tt, q)) else ListOf(tt, q) {
        assert q in os <==> q == o || q in rest;
      }
      if Unfired(ts) == [] {
        RestrictAfterRemove(tt.owners, o, r.lists.Keys);
      }
    }
  }

  /**
   * `expire(now)` on a valid registry: it stays valid; every owner keeps exactly its timers
   * whose deadline is after `now` (observed at `now`), in order; every timer due at or before
   * `now` is gone; owners left without timers lose their entry, the others keep their place.
   */
  lemma ExpireKeepsPending(tt: TimerTable, now: int)
    requires Valid(tt)
    ensures var r := Swept(tt, now);
      && Valid(r)
      && (forall q :: ListOf(r, q) == Unfired(ObserveList(ListOf(tt, q), now)))
      && r.owners == Restrict(tt.owners, r.lists.Keys)
  {
    var observed := Observe(tt, now);
    ObserveValid(tt, now);
    StopDueOwners(observed, observed.owners);
    var r := Swept(tt, now);
    forall q ensures ListOf(r, q) == Unfired(ObserveList(ListOf(tt, q), now)) {
      if q !in observed.owners {
        assert ListOf(tt, q) == [];
      }
    }
  }

  /** After `expire(now)`, a timer is in an owner's list exactly when it was there, observed at `now`, and is due after `now`. */
  lemma SweptKeepsPending(tt: TimerTable, now: int, q: string, x: Timer)
    requires Valid(tt)
    ensures x in ListOf(Swept(tt, now), q) <==> x in ObserveList(ListOf(tt, q), now) && Deadline(x) > now
  {
    ExpireKeepsPending(tt, now);
    ObservedSplit(ListOf(tt, q), now);
  }
}
