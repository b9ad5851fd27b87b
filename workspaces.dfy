/** The workspaces widget (skadi/plugins/components/workspaces.tsx): the
    set of workspace ids and the active id, seeded from two startup queries
    and then updated by every Workspace frame. The JavaScript `Set` keeps
    insertion order, so it is a sequence without duplicates here. */
module WorkspacesWidget {
  import opened Wrappers
  import opened Payloads

  // ---------------------------------------------------------------------
  // Sets in insertion order

  predicate Distinct(s: seq<int>) {
    forall i, j :: 0 <= i < j < |s| ==> s[i] != s[j]
  }

  /** `new Set([...s, x])`: `x` goes at the end unless it is already there. */
  function Add(s: seq<int>, x: int): (r: seq<int>)
    ensures forall y :: y in r <==> y in s || y == x
    ensures Distinct(s) ==> Distinct(r)
  {
    if x in s then s else s + [x]
  }

  /** `set.delete(x)`, and equally `filter(id => id !== x)`. */
  function Remove(s: seq<int>, x: int): (r: seq<int>)
    ensures forall y :: y in r <==> y in s && y != x
    ensures Distinct(s) ==> Distinct(r)
    ensures |r| <= |s|
  {
    if s == [] then []
    else
      var rest := Remove(s[1..], x);
      assert Distinct(s) ==> Distinct(s[1..]) && s[0] !in s[1..] by {
        if Distinct(s) {
          forall j | 0 <= j < |s[1..]|
            ensures s[1..][j] != s[0]
          {
            assert s[1..][j] == s[j + 1];
          }
        }
      }
      (if s[0] == x then [] else [s[0]]) + rest
  }

  /** `new Set(ids)`: first occurrences, in order. */
  function Dedup(ids: seq<int>): (r: seq<int>)
    ensures Distinct(r)
    ensures forall y :: y in r <==> y in ids
  {
    if ids == [] then [] else Add(Dedup(ids[..|ids| - 1]), ids[|ids| - 1])
  }

  /** `Math.min(...s)`. */
  function Min(s: seq<int>): (m: int)
    requires s != []
    ensures m in s
    ensures forall i :: 0 <= i < |s| ==> m <= s[i]
  {
    if |s| == 1 then s[0]
    else
      var rest := Min(s[1..]);
      if s[0] < rest then s[0] else rest
  }

  predicate Ascending(s: seq<int>) {
    forall i, j :: 0 <= i < j < |s| ==> s[i] <= s[j]
  }

  /** An element no greater than the head of an ascending sequence can go
      in front of it. */
  lemma ConsAscending(a: int, t: seq<int>)
    requires Ascending(t)
    requires t == [] || a <= t[0]
    ensures Ascending([a] + t)
  {
    var r := [a] + t;
    forall i, j | 0 <= i < j < |r|
      ensures r[i] <= r[j]
    {
      assert r[j] == t[j - 1];
      if i == 0 {
        assert t[0] <= t[j - 1];
      } else {
        assert r[i] == t[i - 1];
      }
    }
  }

  /** `x` put into an ascending sequence at its place. */
  function Insert(x: int, s: seq<int>): (r: seq<int>)
    requires Ascending(s)
    ensures Ascending(r)
    ensures multiset(r) == multiset(s) + multiset{x}
    ensures r != [] && (r[0] == x || (s != [] && r[0] == s[0]))
  {
    if s == [] || x <= s[0] then
      ConsAscending(x, s);
      [x] + s
    else
      assert Ascending(s[1..]);
      var tail := Insert(x, s[1..]);
      assert s[0] <= tail[0] by {
        if tail[0] != x {
          assert tail[0] == s[1..][0] == s[1];
        }
      }
      ConsAscending(s[0], tail);
      assert s == [s[0]] + s[1..];
      [s[0]] + tail
  }

  /** `Array.from(workspaces).sort((a, b) => a - b)`: the display order. */
  function SortAscending(s: seq<int>): (r: seq<int>)
    ensures Ascending(r)
    ensures multiset(r) == multiset(s)
  {
    if s == [] then []
    else
      assert s == [s[0]] + s[1..];
      Insert(s[0], SortAscending(s[1..]))
  }

  // ---------------------------------------------------------------------
  // The reducer

  datatype State = State(active: int, ids: seq<int>)

  /** `useState(1)` and `useState(new Set([1]))`. */
  const INITIAL: State := State(1, [1])

  /** Whenever there are workspaces, the active one is among them. */
  predicate Consistent(s: State) {
    s.ids == [] || s.active in s.ids
  }

  /** The startup queries: the listing (`None` when the query gave nothing)
      replaces the set; only then is the active query read, and it sets
      the active id when it gave something. */
  function Seeded(s: State, listing: Option<seq<int>>, activeId: Option<int>): State {
    match listing
    case None => s
    case Some(ids) =>
      match activeId
      case None => State(s.active, Dedup(ids))
      case Some(a) => State(a, Dedup(ids))
  }

  /** One workspace event. Destroying works in two steps, as in the
      component: the id is deleted, and if it was the active one the
      remainder is filtered again and the active id moves to its minimum
      when there is one. */
  function ApplyWorkspace(s: State, w: Workspace): State {
    match w.kind
    case Moved => State(w.id, s.ids)
    case Created => State(s.active, Add(s.ids, w.id))
    case Destroyed =>
      var afterDelete := Remove(s.ids, w.id);
      if w.id == s.active then
        var remaining := Remove(afterDelete, w.id);
        if remaining != [] then State(Min(remaining), remaining) else State(s.active, remaining)
      else State(s.active, afterDelete)
  }

  /** The `useListen` handler: frames other than Workspace frames, and
      Workspace frames whose body is not a workspace, change nothing. */
  function Apply(s: State, p: Payload): State {
    if p.op != Value(OpCode.Workspace) then s
    else
      match p.data
      case WorkspaceData(w) => ApplyWorkspace(s, w)
      case _ => s
  }

  /** What each event does to the members and the active id. */
  lemma ApplyWorkspaceEffects(s: State, w: Workspace)
    ensures w.kind == Moved ==> ApplyWorkspace(s, w) == State(w.id, s.ids)
    ensures w.kind == Created ==>
      ApplyWorkspace(s, w).active == s.active &&
      (forall y :: y in ApplyWorkspace(s, w).ids <==> y in s.ids || y == w.id)
    ensures w.kind == Created ==> ApplyWorkspace(ApplyWorkspace(s, w), w) == ApplyWorkspace(s, w)
    ensures w.kind == Destroyed ==>
      (forall y :: y in ApplyWorkspace(s, w).ids <==> y in s.ids && y != w.id)
    ensures w.kind == Destroyed && w.id != s.active ==> ApplyWorkspace(s, w).active == s.active
    ensures w.kind == Destroyed && w.id == s.active && ApplyWorkspace(s, w).ids != [] ==>
      var r := ApplyWorkspace(s, w);
      r.active in r.ids && forall i :: 0 <= i < |r.ids| ==> r.active <= r.ids[i]
    ensures w.kind == Destroyed && ApplyWorkspace(s, w).ids == [] ==>
      ApplyWorkspace(s, w).active == s.active
  {
  }

  /** The set never holds an id twice. */
  lemma ApplyKeepsDistinct(s: State, p: Payload)
    requires Distinct(s.ids)
    ensures Distinct(Apply(s, p).ids)
  {
  }

  /** Destroy events keep the active id among the workspaces, and so do
      Created events while there are workspaces; a Moved event does exactly
      when it names a member. */
  lemma ApplyWorkspaceConsistent(s: State, w: Workspace)
    requires Consistent(s)
    ensures w.kind == Destroyed ==> Consistent(ApplyWorkspace(s, w))
    ensures w.kind == Created && s.ids != [] ==> Consistent(ApplyWorkspace(s, w))
    ensures w.kind == Moved ==> (Consistent(ApplyWorkspace(s, w)) <==> s.ids == [] || w.id in s.ids)
  {
    if w.kind == Destroyed && w.id != s.active && s.ids != [] {
      assert s.active in Remove(s.ids, w.id);
    }
  }

  /** Once the last workspace is destroyed the active id is left behind, and
      a workspace created next is not the active one. */
  lemma DestroyLastThenCreate()
    ensures ApplyWorkspace(INITIAL, Workspace.Workspace(1, Destroyed)) == State(1, [])
    ensures ApplyWorkspace(State(1, []), Workspace.Workspace(2, Created)) == State(1, [2])
    ensures !Consistent(State(1, [2]))
  {
    assert Remove([1], 1) == [];
    assert Remove([], 1) == [];
  }

  /** Destroying the active 3 out of {1, 3, 5} leaves {1, 5} with 1 active. */
  lemma DestroyActiveExample()
    ensures ApplyWorkspace(State(3, [1, 3, 5]), Workspace.Workspace(3, Destroyed)) == State(1, [1, 5])
  {
    assert Remove([], 3) == [];
    assert [5][1..] == [] && Remove([5], 3) == [5];
    assert [3, 5][1..] == [5] && Remove([3, 5], 3) == [5];
    assert [1, 3, 5][1..] == [3, 5] && Remove([1, 3, 5], 3) == [1, 5];
    assert [1, 5][1..] == [5] && Remove([1, 5], 3) == [1, 5];
    assert [1, 5][1..] == [5] && Min([1, 5]) == 1;
  }

  /** The state after a run of frames. */
  function Fold(s: State, frames: seq<Payload>): State {
    if frames == [] then s else Apply(Fold(s, frames[..|frames| - 1]), frames[|frames| - 1])
  }

  /** Only the Workspace frames of a run. */
  function WorkspaceFrames(frames: seq<Payload>): (r: seq<Payload>)
    ensures forall k :: 0 <= k < |r| ==> r[k].op == Value(OpCode.Workspace)
  {
    if frames == [] then []
    else
      var last := frames[|frames| - 1];
      WorkspaceFrames(frames[..|frames| - 1]) + (if last.op == Value(OpCode.Workspace) then [last] else [])
  }

  /** Interleaved frames of other kinds make no difference. */
  lemma {:induction false} FoldIgnoresOtherFrames(s: State, frames: seq<Payload>)
    ensures Fold(s, frames) == Fold(s, WorkspaceFrames(frames))
  {
    if frames != [] {
      var init := frames[..|frames| - 1];
      var last := frames[|frames| - 1];
      FoldIgnoresOtherFrames(s, init);
      if last.op == Value(OpCode.Workspace) {
        var w := WorkspaceFrames(init) + [last];
        assert w[..|w| - 1] == WorkspaceFrames(init);
      } else {
        assert WorkspaceFrames(frames) == WorkspaceFrames(init);
      }
    }
  }

  /** A run of Created and Destroyed events that starts with a workspace
      present and never empties the set keeps the active id among them. */
  lemma {:induction false} CreateDestroyRunConsistent(s: State, events: seq<Workspace>)
    requires Consistent(s)
    requires forall k :: 0 <= k < |events| ==> events[k].kind != Moved
    requires forall k :: 0 <= k <= |events| ==> RunOf(s, events[..k]).ids != []
    ensures Consistent(RunOf(s, events))
  {
    if events != [] {
      var init := events[..|events| - 1];
      forall k | 0 <= k <= |init|
        ensures RunOf(s, init[..k]).ids != []
      {
        assert init[..k] == events[..k];
      }
      CreateDestroyRunConsistent(s, init);
      assert events[..|events|] == events;
      ApplyWorkspaceConsistent(RunOf(s, init), events[|events| - 1]);
    }
  }

  /** The state after a run of workspace events. */
  function RunOf(s: State, events: seq<Workspace>): State {
    if events == [] then s else ApplyWorkspace(RunOf(s, events[..|events| - 1]), events[|events| - 1])
  }

  // ---------------------------------------------------------------------
  // The component's state cells

  class Workspaces {
    var active: int
    var workspaces: seq<int>

    constructor ()
      ensures Snapshot() == INITIAL
    {
      active := 1;
      workspaces := [1];
    }

    function Snapshot(): State
      reads this
    {
      State(active, workspaces)
    }

    /** `getInitialWorkspaces`, with the two query results as parameters. */
    method Seed(listing: Option<seq<int>>, activeId: Option<int>)
      modifies this
      ensures Snapshot() == Seeded(old(Snapshot()), listing, activeId)
    {
      if listing.None? {
        return;
      }
      workspaces := Dedup(listing.value);
      if activeId.None? {
        return;
      }
      active := activeId.value;
    }

    /** The `useListen` callback. */
    method Listen(p: Payload)
      modifies this
      ensures Snapshot() == Apply(old(Snapshot()), p)
    {
      if p.op != Value(OpCode.Workspace) || !p.data.WorkspaceData? {
        return;
      }
      var w := p.data.workspace;
      match w.kind {
        case Moved =>
          active := w.id;
        case Created =>
          workspaces := Add(workspaces, w.id);
        case Destroyed =>
          workspaces := Remove(workspaces, w.id);
          if w.id == active {
            var remaining := Remove(workspaces, w.id);
            if remaining != [] {
              active := Min(remaining);
            }
            workspaces := remaining;
          }
      }
    }
  }
}
