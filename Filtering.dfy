/**
 * The selection `ApplyFilter` makes: a status stage (only when a status filter is set) followed by a
 * search stage (only when the search text is not blank) that keeps a task whose title or description
 * contains the search text, ignoring case. `Filter` is the value the filtered list must hold.
 */
module Filtering {
  import opened Wrappers
  import opened Text
  import opened Models
  import opened Sequences

  /** The status stage: with no filter every status passes. */
  predicate StatusMatches(d: TaskData, filter: Option<TaskStatus>)
  {
    filter.None? || d.status == filter.value
  }

  /** The search stage: a blank search passes everything; otherwise title or description must contain it. */
  predicate SearchMatches(d: TaskData, search: Option<string>)
  {
    IsNullOrWhiteSpace(search)
    || ContainsIgnoreCase(d.title, search.value)
    || ContainsIgnoreCase(d.description, search.value)
  }

  /** A task is shown when it passes both stages. */
  predicate Matches(d: TaskData, filter: Option<TaskStatus>, search: Option<string>)
  {
    StatusMatches(d, filter) && SearchMatches(d, search)
  }

  /** Which positions of `ds` are shown. */
  function MatchMask(ds: seq<TaskData>, filter: Option<TaskStatus>, search: Option<string>): seq<bool>
  {
    seq(|ds|, i requires 0 <= i < |ds| => Matches(ds[i], filter, search))
  }

  /** The tasks that are shown, in their order in the full list. */
  function Filter(ds: seq<TaskData>, filter: Option<TaskStatus>, search: Option<string>): seq<TaskData>
  {
    Keep(ds, MatchMask(ds, filter, search))
  }

  /** Filtering a list extended at the end extends the filtered list by the new task if it is shown. */
  lemma FilterSnoc(ds: seq<TaskData>, d: TaskData, filter: Option<TaskStatus>, search: Option<string>)
    ensures Filter(ds + [d], filter, search)
         == Filter(ds, filter, search) + (if Matches(d, filter, search) then [d] else [])
  {
    var all := ds + [d];
    assert all[..|ds|] == ds;
    assert MatchMask(all, filter, search)[..|ds|] == MatchMask(ds, filter, search);
  }

  /** A task is shown exactly when it is in the list and passes both stages. */
  lemma FilterMember(ds: seq<TaskData>, filter: Option<TaskStatus>, search: Option<string>, d: TaskData)
    ensures d in Filter(ds, filter, search) <==> d in ds && Matches(d, filter, search)
  {
    KeepMember(ds, MatchMask(ds, filter, search), d);
  }

  /**
   * The shown tasks are, in order, exactly the tasks at the matching positions: Filter picks its
   * k-th element from the k-th matching position, and every matching position is picked.
   */
  lemma FilterIsMatchingSubsequence(ds: seq<TaskData>, filter: Option<TaskStatus>, search: Option<string>)
    ensures var idx := KeptIndices(MatchMask(ds, filter, search));
      && |Filter(ds, filter, search)| == |idx|
      && (forall k :: 0 <= k < |idx| ==> Filter(ds, filter, search)[k] == ds[idx[k]])
      && (forall j, k :: 0 <= j < k < |idx| ==> idx[j] < idx[k])
      && (forall i :: 0 <= i < |ds| ==> (i in idx <==> Matches(ds[i], filter, search)))
  {
    KeepAtKeptIndices(ds, MatchMask(ds, filter, search));
  }

  /** With no status filter and a blank search, every task is shown, in order. */
  lemma FilterWithoutCriteria(ds: seq<TaskData>, search: Option<string>)
    requires IsNullOrWhiteSpace(search)
    ensures Filter(ds, None, search) == ds
  {
    KeepAll(ds, MatchMask(ds, None, search));
  }

  /** Without criteria the mask keeps every element of a list of the same length. */
  lemma KeepWithoutCriteria<T>(xs: seq<T>, ds: seq<TaskData>, search: Option<string>)
    requires |xs| == |ds| && IsNullOrWhiteSpace(search)
    ensures Keep(xs, MatchMask(ds, None, search)) == xs
  {
    KeepAll(xs, MatchMask(ds, None, search));
  }

  /** Filtering the shown tasks again with the same criteria shows them all. */
  lemma FilterIdempotent(ds: seq<TaskData>, filter: Option<TaskStatus>, search: Option<string>)
    ensures Filter(Filter(ds, filter, search), filter, search) == Filter(ds, filter, search)
  {
    var shown := Filter(ds, filter, search);
    forall i | 0 <= i < |shown|
      ensures MatchMask(shown, filter, search)[i]
    {
      FilterMember(ds, filter, search, shown[i]);
    }
    KeepAll(shown, MatchMask(shown, filter, search));
  }

  /**
   * The two stages compose as a conjunction: running the status stage alone and then the search
   * stage alone on its output shows the same tasks as the combined filter.
   */
  lemma {:induction false} FilterStages(ds: seq<TaskData>, filter: Option<TaskStatus>, search: Option<string>)
    ensures Filter(Filter(ds, filter, None), None, search) == Filter(ds, filter, search)
    decreases |ds|
  {
    if |ds| > 0 {
      var n := |ds| - 1;
      var d := ds[n];
      assert ds == ds[..n] + [d];
      FilterStages(ds[..n], filter, search);
      FilterSnoc(ds[..n], d, filter, search);
      FilterSnoc(ds[..n], d, filter, None);
      var staged := Filter(ds[..n], filter, None);
      if StatusMatches(d, filter) {
        assert Filter(ds, filter, None) == staged + [d];
        FilterSnoc(staged, d, None, search);
      } else {
        assert Filter(ds, filter, None) == staged;
      }
    }
  }

  /** The search compares case-insensitively: "WPF" and "wpf" show the same tasks. */
  lemma FilterIgnoresSearchCase(ds: seq<TaskData>, filter: Option<TaskStatus>, p: string, q: string)
    requires ToUpperString(p) == ToUpperString(q)
    ensures Filter(ds, filter, Some(p)) == Filter(ds, filter, Some(q))
  {
    BlankIgnoresCase(p, q);
    forall i | 0 <= i < |ds|
      ensures Matches(ds[i], filter, Some(p)) == Matches(ds[i], filter, Some(q))
    {
      ContainsIgnoresPatternCase(ds[i].title, p, q);
      ContainsIgnoresPatternCase(ds[i].description, p, q);
    }
    assert MatchMask(ds, filter, Some(p)) == MatchMask(ds, filter, Some(q));
  }

  /** Selecting references by a mask and then reading them is reading them and then selecting. */
  lemma {:induction false} SnapshotKeep(ts: seq<TaskItem>, mask: seq<bool>)
    requires |mask| == |ts|
    ensures Snapshot(Keep(ts, mask)) == Keep(Snapshot(ts), mask)
    decreases |ts|
  {
    if |ts| > 0 {
      var n := |ts| - 1;
      SnapshotKeep(ts[..n], mask[..n]);
      assert Snapshot(ts)[..n] == Snapshot(ts[..n]);
      var front := Keep(ts[..n], mask[..n]);
      if mask[n] {
        assert Snapshot(front + [ts[n]]) == Snapshot(front) + [ts[n].Data()];
      } else {
        assert Keep(ts, mask) == front;
      }
    }
  }
}
