/**
 * A process's children: an ordered list of entries (process, pid, metadata keys),
 * searched by pid or by a metadata query.
 */
module Children {
  import opened Wrappers
  import opened Values
  import opened SeqFacts
  import Runtime

  /** One registered child: the process, its pid as read at registration, and its metadata. */
  datatype Child = Child(process: Runtime.Process, pid: string, keys: map<string, Value>)

  /** A query matches a child when every queried key is present with an equal value. */
  predicate Matches(c: Child, query: map<string, Value>)
  {
    forall k :: k in query ==> k in c.keys && c.keys[k] == query[k]
  }

  /** The index of the first child with this pid, or |cs| when there is none. */
  function FirstWithPid(cs: seq<Child>, pid: string): (i: nat)
    ensures i <= |cs|
    ensures i < |cs| ==> cs[i].pid == pid
    ensures forall j :: 0 <= j < i ==> cs[j].pid != pid
  {
    if cs == [] then 0
    else if cs[0].pid == pid then 0
    else 1 + FirstWithPid(cs[1..], pid)
  }

  /** The index of the first child the query matches, or |cs| when there is none. */
  function FirstMatching(cs: seq<Child>, query: map<string, Value>): (i: nat)
    ensures i <= |cs|
    ensures i < |cs| ==> Matches(cs[i], query)
    ensures forall j :: 0 <= j < i ==> !Matches(cs[j], query)
  {
    if cs == [] then 0
    else if Matches(cs[0], query) then 0
    else 1 + FirstMatching(cs[1..], query)
  }

  /** The first child with this pid, if any. */
  function ChildWithPid(cs: seq<Child>, pid: string): (r: Option<Child>)
  {
    var i := FirstWithPid(cs, pid);
    if i < |cs| then Some(cs[i]) else None
  }

  /** Every child the query matches, in list order. */
  function AllMatching(cs: seq<Child>, query: map<string, Value>): (r: seq<Child>)
    ensures |r| <= |cs|
    decreases |cs|
  {
    if cs == [] then []
    else
      var last := cs[|cs| - 1];
      AllMatching(cs[..|cs| - 1], query) + if Matches(last, query) then [last] else []
  }

  /** The list after `set_keys_by_pid`: the first child with this pid has `keys` merged over its own. */
  function WithKeysMerged(cs: seq<Child>, pid: string, keys: map<string, Value>): (r: seq<Child>)
  {
    var i := FirstWithPid(cs, pid);
    if i < |cs| then cs[i := cs[i].(keys := cs[i].keys + keys)] else cs
  }

  /** The list after `unregister_by_keys`: the first child the query matches is gone. */
  function WithoutFirstMatch(cs: seq<Child>, query: map<string, Value>): (r: seq<Child>)
  {
    var i := FirstMatching(cs, query);
    if i < |cs| then cs[..i] + cs[i + 1..] else cs
  }

  class ChildrenManager {
    var children: seq<Child>

    /** `__init__`: no children. */
    constructor ()
      ensures children == []
    {
      children := [];
    }

    /** `register(child, **keys)`: appends the child at the end and returns it. */
    method Register(p: Runtime.Process, keys: map<string, Value>) returns (r: Runtime.Process)
      modifies this
      ensures children == old(children) + [Child(p, p.pid, keys)] && r == p
    {
      children := children + [Child(p, p.pid, keys)];
      r := p;
    }

    /** `add_to_front(child, **keys)`: inserts the child before every other. */
    method AddToFront(p: Runtime.Process, keys: map<string, Value>)
      modifies this
      ensures children == [Child(p, p.pid, keys)] + old(children)
    {
      children := [Child(p, p.pid, keys)] + children;
    }

    /** `set_keys_by_pid(pid, **keys)`: merges `keys` into the first child with that pid; false when there is none. */
    method SetKeysByPid(pid: string, keys: map<string, Value>) returns (found: bool)
      modifies this
      ensures found <==> exists j :: 0 <= j < |old(children)| && old(children)[j].pid == pid
      ensures children == WithKeysMerged(old(children), pid, keys)
    {
      var i := 0;
      while i < |children|
        invariant 0 <= i <= |children|
        invariant forall j :: 0 <= j < i ==> children[j].pid != pid
        invariant children == old(children)
      {
        if children[i].pid == pid {
          children := children[i := children[i].(keys := children[i].keys + keys)];
          return true;
        }
        i := i + 1;
      }
      return false;
    }

    /** `get_keys_by_pid(pid)`: the metadata of the first child with that pid, or None. */
    method GetKeysByPid(pid: string) returns (r: Option<map<string, Value>>)
      ensures r.Some? <==> exists j :: 0 <= j < |children| && children[j].pid == pid
      ensures r.Some? ==> ChildWithPid(children, pid) == Some(children[FirstWithPid(children, pid)])
                          && r.value == children[FirstWithPid(children, pid)].keys
    {
      for i := 0 to |children|
        invariant forall j :: 0 <= j < i ==> children[j].pid != pid
      {
        if children[i].pid == pid {
          return Some(children[i].keys);
        }
      }
      return None;
    }

    /** `get_by_pid(pid)`: the first child with that pid, or None. */
    method GetByPid(pid: string) returns (r: Option<Child>)
      ensures r == ChildWithPid(children, pid)
    {
      for i := 0 to |children|
        invariant forall j :: 0 <= j < i ==> children[j].pid != pid
      {
        if children[i].pid == pid {
          return Some(children[i]);
        }
      }
      return None;
    }

    /** `get_child_list()`: a copy of the list. */
    method GetChildList() returns (r: seq<Child>)
      ensures r == children
    {
      r := children;
    }

    /** `get_count()`. */
    method GetCount() returns (n: nat)
      ensures n == |children|
    {
      n := |children|;
    }

    /** `get_first_child_with_keys(**query)`: the earliest child the query matches, or None. */
    method GetFirstChildWithKeys(query: map<string, Value>) returns (r: Option<Child>)
      ensures r.Some? <==> exists j :: 0 <= j < |children| && Matches(children[j], query)
      ensures r.Some? ==> r.value == children[FirstMatching(children, query)]
    {
      for i := 0 to |children|
        invariant forall j :: 0 <= j < i ==> !Matches(children[j], query)
      {
        var hit := CheckKeysMatch(children[i], query);
        if hit {
          return Some(children[i]);
        }
      }
      return None;
    }

    /** `get_child_list_with_keys(**query)`: every child the query matches, in list order. */
    method GetChildListWithKeys(query: map<string, Value>) returns (r: seq<Child>)
      ensures r == AllMatching(children, query)
    {
      r := [];
      for i := 0 to |children|
        invariant r == AllMatching(children[..i], query)
      {
        var hit := CheckKeysMatch(children[i], query);
        AllMatchingStep(children, i, query);
        if hit {
          r := r + [children[i]];
        }
      }
      WholePrefix(children);
    }

    /** `unregister_by_keys(**query)`: removes the first child the query matches; no match changes nothing. */
    method UnregisterByKeys(query: map<string, Value>)
      modifies this
      ensures children == WithoutFirstMatch(old(children), query)
    {
      var i := 0;
      while i < |children|
        invariant 0 <= i <= |children|
        invariant forall j :: 0 <= j < i ==> !Matches(children[j], query)
        invariant children == old(children)
      {
        var hit := CheckKeysMatch(children[i], query);
        if hit {
          children := children[..i] + children[i + 1..];
          return;
        }
        i := i + 1;
      }
    }

    /** `_check_keys_match(child, query)`: walks the query's keys and fails at the first absent or different one. */
    static method CheckKeysMatch(c: Child, query: map<string, Value>) returns (b: bool)
      ensures b == Matches(c, query)
    {
      var todo := query.Keys;
      while todo != {}
        invariant todo <= query.Keys
        invariant forall k :: k in query && k !in todo ==> k in c.keys && c.keys[k] == query[k]
        decreases |todo|
      {
        var k :| k in todo;
        if k !in c.keys || c.keys[k] != query[k] {
          return false;
        }
        todo := todo - {k};
      }
      return true;
    }
  }

  /** One more child considered by the filter. */
  lemma AllMatchingStep(cs: seq<Child>, i: nat, query: map<string, Value>)
    requires i < |cs|
    ensures AllMatching(cs[..i + 1], query) == AllMatching(cs[..i], query) + if Matches(cs[i], query) then [cs[i]] else []
  {
    var prefix := cs[..i + 1];
    assert prefix[..|prefix| - 1] == cs[..i] && prefix[|prefix| - 1] == cs[i];
  }

  /** Appending a child leaves the first pid match in place; otherwise the new child is it. */
  lemma {:induction false} FirstWithPidSnoc(cs: seq<Child>, c: Child)
    ensures FirstWithPid(cs + [c], c.pid) == FirstWithPid(cs, c.pid)
    decreases |cs|
  {
    if cs != [] {
      assert (cs + [c])[0] == cs[0] && (cs + [c])[1..] == cs[1..] + [c];
      FirstWithPidSnoc(cs[1..], c);
    }
  }

  /** A child registered at the end is found by its pid, unless an earlier child has the same pid. */
  lemma RegisteredIsFound(cs: seq<Child>, c: Child)
    ensures ChildWithPid(cs + [c], c.pid) == if FirstWithPid(cs, c.pid) < |cs| then ChildWithPid(cs, c.pid) else Some(c)
  {
    FirstWithPidSnoc(cs, c);
  }

  /** A child added at the front is the one found by its pid. */
  lemma AddedToFrontIsFound(cs: seq<Child>, c: Child)
    ensures ChildWithPid([c] + cs, c.pid) == Some(c)
  {
  }

  /**
   * After a merge the chosen child matches the merged keys, keeps every old key the merge
   * does not name, and every other child and the length are unchanged.
   */
  lemma MergedChildMatches(cs: seq<Child>, pid: string, keys: map<string, Value>)
    requires exists j :: 0 <= j < |cs| && cs[j].pid == pid
    ensures var i, r := FirstWithPid(cs, pid), WithKeysMerged(cs, pid, keys);
      && |r| == |cs| && i < |cs|
      && Matches(r[i], keys)
      && r[i].process == cs[i].process && r[i].pid == pid
      && (forall k :: k in cs[i].keys && k !in keys ==> k in r[i].keys && r[i].keys[k] == cs[i].keys[k])
      && (forall j :: 0 <= j < |cs| && j != i ==> r[j] == cs[j])
  {
    var j :| 0 <= j < |cs| && cs[j].pid == pid;
    assert FirstWithPid(cs, pid) <= j;
  }

  /** Filtering a concatenation filters each part. */
  lemma {:induction false} AllMatchingAppend(a: seq<Child>, b: seq<Child>, query: map<string, Value>)
    ensures AllMatching(a + b, query) == AllMatching(a, query) + AllMatching(b, query)
    decreases |b|
  {
    if b == [] {
      assert a + b == a;
      assert AllMatching(a, query) + [] == AllMatching(a, query);
    } else {
      var init, last := b[..|b| - 1], b[|b| - 1];
      var ab := a + b;
      assert ab[..|ab| - 1] == a + init && ab[|ab| - 1] == last;
      AllMatchingAppend(a, init, query);
      AppendAssoc(AllMatching(a, query), AllMatching(init, query), if Matches(last, query) then [last] else []);
    }
  }

  /** No child before index `n` matches: the filter of that prefix is empty. */
  lemma {:induction false} NoneMatchingBefore(cs: seq<Child>, n: nat, query: map<string, Value>)
    requires n <= |cs|
    requires forall j :: 0 <= j < n ==> !Matches(cs[j], query)
    ensures AllMatching(cs[..n], query) == []
  {
    if n > 0 {
      NoneMatchingBefore(cs, n - 1, query);
      AllMatchingStep(cs, n - 1, query);
    }
  }

  /** The filter keeps exactly the matching children: nothing else, and none of them is lost. */
  lemma {:induction false} AllMatchingMembers(cs: seq<Child>, query: map<string, Value>)
    ensures forall c :: c in AllMatching(cs, query) <==> c in cs && Matches(c, query)
    decreases |cs|
  {
    if cs != [] {
      var init, last := cs[..|cs| - 1], cs[|cs| - 1];
      AllMatchingMembers(init, query);
      assert cs == init + [last];
    }
  }

  /**
   * The first match is the head of the list of all matches; `get_first_child_with_keys` finds
   * something exactly when `get_child_list_with_keys` is non-empty.
   */
  lemma FirstMatchHeadsAll(cs: seq<Child>, query: map<string, Value>)
    ensures FirstMatching(cs, query) < |cs| <==> AllMatching(cs, query) != []
    ensures FirstMatching(cs, query) < |cs| ==> AllMatching(cs, query)[0] == cs[FirstMatching(cs, query)]
  {
    var i := FirstMatching(cs, query);
    if i < |cs| {
      SplitAtMatch(cs, query);
    } else {
      NoneMatchingBefore(cs, |cs|, query);
      WholePrefix(cs);
    }
  }

  /** Around the first match, the filter is that child followed by the filter of what comes after it. */
  lemma SplitAtMatch(cs: seq<Child>, query: map<string, Value>)
    requires FirstMatching(cs, query) < |cs|
    ensures var i := FirstMatching(cs, query);
      AllMatching(cs, query) == [cs[i]] + AllMatching(cs[i + 1..], query)
  {
    var i := FirstMatching(cs, query);
    var front, back := cs[..i + 1], cs[i + 1..];
    UpToFirstMatch(cs, i, query);
    assert cs == front + back;
    AllMatchingAppend(front, back, query);
  }

  /** Up to and including the first match, the filter holds that match alone. */
  lemma UpToFirstMatch(cs: seq<Child>, i: nat, query: map<string, Value>)
    requires i < |cs| && Matches(cs[i], query)
    requires forall j :: 0 <= j < i ==> !Matches(cs[j], query)
    ensures AllMatching(cs[..i + 1], query) == [cs[i]]
  {
    NoneMatchingBefore(cs, i, query);
    AllMatchingStep(cs, i, query);
  }

  /** `unregister_by_keys` removes exactly the head of the list of matches, and one child in all when there is a match. */
  lemma UnregisterDropsFirstMatch(cs: seq<Child>, query: map<string, Value>)
    ensures var all, r := AllMatching(cs, query), WithoutFirstMatch(cs, query);
      && AllMatching(r, query) == (if all == [] then [] else all[1..])
      && |r| == (if all == [] then |cs| else |cs| - 1)
  {
    var i := FirstMatching(cs, query);
    FirstMatchHeadsAll(cs, query);
    if i < |cs| {
      SplitAtMatch(cs, query);
      NoneMatchingBefore(cs, i, query);
      AllMatchingAppend(cs[..i], cs[i + 1..], query);
      assert [] + AllMatching(cs[i + 1..], query) == AllMatching(cs[i + 1..], query);
    }
  }

  /** The empty query matches every child: the filter is the whole list and the first match the first child. */
  lemma {:induction false} EmptyQueryMatchesAll(cs: seq<Child>)
    ensures AllMatching(cs, map[]) == cs
    ensures cs != [] ==> FirstMatching(cs, map[]) == 0
    decreases |cs|
  {
    if cs != [] {
      EmptyQueryMatchesAll(cs[..|cs| - 1]);
      assert cs[..|cs| - 1] + [cs[|cs| - 1]] == cs;
    }
  }
}
