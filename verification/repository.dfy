/** Project persistence: the repository port's contract and the in-memory
    repository that implements it.

    The in-memory repository is a Python dict from id to project. A dict
    remembers insertion order, and that order decides how `get_all` breaks
    ties between equal creation times, so the state keeps the keys in
    insertion order beside the map. */
module Repository {
  import opened Wrappers
  import opened Uuids
  import opened Entities
  import opened Errors

  datatype Repo = Repo(order: seq<Uuid>, store: map<Uuid, Project>)

  /** Result of a repository call: the state afterwards and the value returned
      or the exception raised. */
  datatype Step<T> = Step(repo: Repo, result: Result<T, Error>)

  predicate Distinct(ids: seq<Uuid>) {
    forall i, j :: 0 <= i < j < |ids| ==> ids[i] != ids[j]
  }

  /** The keys listed in insertion order are exactly the stored keys, once
      each, and every project is stored under its own id. */
  ghost predicate Valid(r: Repo) {
    && Distinct(r.order)
    && (forall id :: id in r.store <==> id in r.order)
    && (forall id :: id in r.store ==> r.store[id].id == id)
  }

  function Empty(): (r: Repo)
    ensures Valid(r) && r.store == map[]
  {
    Repo([], map[])
  }

  /** Map lookup, as `dict.get`. */
  function Lookup(r: Repo, id: Uuid): Option<Project> {
    if id in r.store then Some(r.store[id]) else None
  }

  // ---------------------------------------------------------------------
  // The port: what every implementation of the repository must guarantee.
  // ---------------------------------------------------------------------

  /** `create`: a new project is stored and returned; an id already present
      raises `ProjectAlreadyExistsError`. */
  ghost predicate PortCreate(before: Repo, p: Project, s: Step<Project>) {
    if p.id in before.store then s.result.Err? && s.result.error.ProjectAlreadyExists?
    else s.result == Ok(p) && Lookup(s.repo, p.id) == Some(p)
  }

  /** `get_by_id`: the stored project, or `None` when absent; never raises. */
  ghost predicate PortGet(r: Repo, id: Uuid, found: Option<Project>) {
    (found.Some? <==> id in r.store) && (found.Some? ==> found.value == r.store[id])
  }

  /** `get_all`: every stored project, newest creation first. */
  ghost predicate PortGetAll(r: Repo, all: seq<Project>) {
    && (forall p :: p in all <==> p in r.store.Values)
    && NewestFirst(all)
  }

  /** `update`: an absent id raises `ProjectNotFoundError`. */
  ghost predicate PortUpdate(before: Repo, p: Project, s: Step<Project>) {
    if p.id !in before.store then s.result.Err? && s.result.error.ProjectNotFound?
    else s.result == Ok(p) && Lookup(s.repo, p.id) == Some(p)
  }

  /** `delete`: true iff a project was removed. */
  ghost predicate PortDelete(before: Repo, id: Uuid, after: Repo, removed: bool) {
    (removed <==> id in before.store) && id !in after.store
  }

  // ---------------------------------------------------------------------
  // Ordering by creation time.
  // ---------------------------------------------------------------------

  /** Ordered by `created_at`, newest first. */
  predicate NewestFirst(s: seq<Project>) {
    forall i, j :: 0 <= i < j < |s| ==> s[i].createdAt >= s[j].createdAt
  }

  /** The projects of `s` created at time `t`, in their order in `s`. */
  function CreatedAt(s: seq<Project>, t: Timestamp): (r: seq<Project>)
    ensures |r| <= |s|
    decreases |s|
  {
    if |s| == 0 then []
    else if s[0].createdAt == t then [s[0]] + CreatedAt(s[1..], t)
    else CreatedAt(s[1..], t)
  }

  /** Sorting by `created_at` keeps equal-time projects in their original
      order: for every time, the projects stamped with it appear in the same
      order before and after. */
  ghost predicate StableFor(input: seq<Project>, output: seq<Project>) {
    forall t: Timestamp :: CreatedAt(output, t) == CreatedAt(input, t)
  }

  /** One step of insertion sort: `p` goes before the first project that is
      not newer than it. */
  function InsertNewest(p: Project, sorted: seq<Project>): (r: seq<Project>)
    requires NewestFirst(sorted)
    ensures NewestFirst(r)
    ensures multiset(r) == multiset(sorted) + multiset{p}
    ensures |r| == |sorted| + 1
    decreases |sorted|
  {
    if |sorted| == 0 || p.createdAt >= sorted[0].createdAt then [p] + sorted
    else
      var rest := InsertNewest(p, sorted[1..]);
      assert sorted == [sorted[0]] + sorted[1..];
      assert rest[0] in multiset(rest);
      [sorted[0]] + rest
  }

  /** Inserting keeps per-time order: the inserted project precedes every
      equal-time project that was already sorted. */
  lemma {:induction false} InsertNewestStable(p: Project, sorted: seq<Project>, t: Timestamp)
    requires NewestFirst(sorted)
    ensures CreatedAt(InsertNewest(p, sorted), t) == CreatedAt([p] + sorted, t)
    decreases |sorted|
  {
    if |sorted| == 0 || p.createdAt >= sorted[0].createdAt {
    } else {
      var s0 := sorted[0];
      var rest := sorted[1..];
      InsertNewestStable(p, rest, t);
      assert ([p] + sorted)[1..] == sorted;
      assert ([p] + rest)[1..] == rest;
      assert ([s0] + InsertNewest(p, rest))[1..] == InsertNewest(p, rest);
      assert sorted == [s0] + rest;
    }
  }

  /** The time filter, unfolded once at the head. */
  lemma CreatedAtHead(s: seq<Project>, t: Timestamp)
    requires |s| > 0
    ensures CreatedAt(s, t) == (if s[0].createdAt == t then [s[0]] else []) + CreatedAt(s[1..], t)
  {
  }

  /** Inserting the head of `ps` into a stable sort of its tail gives a
      stable sort of `ps`. */
  lemma InsertHeadStable(ps: seq<Project>, rest: seq<Project>)
    requires |ps| > 0 && NewestFirst(rest) && StableFor(ps[1..], rest)
    ensures StableFor(ps, InsertNewest(ps[0], rest))
  {
    forall t: Timestamp ensures CreatedAt(InsertNewest(ps[0], rest), t) == CreatedAt(ps, t) {
      InsertNewestStable(ps[0], rest, t);
      CreatedAtHead([ps[0]] + rest, t);
      assert ([ps[0]] + rest)[1..] == rest;
      CreatedAtHead(ps, t);
    }
  }

  /** `sorted(projects, key=created_at, reverse=True)`. Python's sort is
      stable even when reversed. */
  function SortNewestFirst(ps: seq<Project>): (r: seq<Project>)
    ensures NewestFirst(r)
    ensures multiset(r) == multiset(ps)
    ensures StableFor(ps, r)
    decreases |ps|
  {
    if |ps| == 0 then []
    else
      var rest := SortNewestFirst(ps[1..]);
      assert ps == [ps[0]] + ps[1..];
      InsertHeadStable(ps, rest);
      InsertNewest(ps[0], rest)
  }

  /** A project of time `t` lies in `s` iff the time filter keeps it. */
  lemma {:induction false} CreatedAtMembers(s: seq<Project>, t: Timestamp, p: Project)
    ensures p in CreatedAt(s, t) <==> p in s && p.createdAt == t
    decreases |s|
  {
    if |s| > 0 {
      CreatedAtMembers(s[1..], t, p);
      assert s == [s[0]] + s[1..];
    }
  }

  /** Uniqueness: any newest-first arrangement that keeps the per-time order of
      the input is the stable sort of the input. So `SortNewestFirst` is the
      only result a stable descending sort may return. */
  lemma {:induction false} StableSortUnique(a: seq<Project>, b: seq<Project>)
    requires NewestFirst(a) && NewestFirst(b) && StableFor(a, b)
    ensures a == b
    decreases |a| + |b|
  {
    if |a| == 0 && |b| == 0 {
    } else if |a| == 0 {
      CreatedAtMembers(b, b[0].createdAt, b[0]);
    } else if |b| == 0 {
      CreatedAtMembers(a, a[0].createdAt, a[0]);
    } else {
      var ta, tb := a[0].createdAt, b[0].createdAt;
      // The newest time is the same in both.
      assert ta == tb by {
        CreatedAtMembers(a, ta, a[0]);
        assert a[0] in CreatedAt(b, ta);
        CreatedAtMembers(b, ta, a[0]);
        CreatedAtMembers(b, tb, b[0]);
        assert b[0] in CreatedAt(a, tb);
        CreatedAtMembers(a, tb, b[0]);
        var i :| 0 <= i < |b| && b[i] == a[0];
        var j :| 0 <= j < |a| && a[j] == b[0];
        assert tb >= ta;
        assert ta >= tb;
      }
      CreatedAtHead(a, ta);
      CreatedAtHead(b, ta);
      assert CreatedAt(a, ta) == CreatedAt(b, ta);
      assert CreatedAt(a, ta)[0] == a[0] && CreatedAt(b, ta)[0] == b[0];
      assert a[0] == b[0];
      assert StableFor(a[1..], b[1..]) by {
        forall t: Timestamp ensures CreatedAt(b[1..], t) == CreatedAt(a[1..], t) {
          assert CreatedAt(b, t) == CreatedAt(a, t);
          CreatedAtHead(a, t);
          CreatedAtHead(b, t);
          if t == ta {
            assert CreatedAt(a, t)[1..] == CreatedAt(a[1..], t);
            assert CreatedAt(b, t)[1..] == CreatedAt(b[1..], t);
          }
        }
      }
      assert NewestFirst(a[1..]) && NewestFirst(b[1..]);
      StableSortUnique(a[1..], b[1..]);
      assert a == [a[0]] + a[1..] && b == [b[0]] + b[1..];
    }
  }

  // ---------------------------------------------------------------------
  // The in-memory repository.
  // ---------------------------------------------------------------------

  /** `dict.values()`: the stored projects in insertion order. */
  function Values(r: Repo): (vs: seq<Project>)
    requires Valid(r)
    ensures |vs| == |r.order|
    ensures forall p :: p in vs <==> p in r.store.Values
  {
    var vs := seq(|r.order|, i requires 0 <= i < |r.order| => r.store[r.order[i]]);
    assert forall p :: p in r.store.Values ==> p in vs by {
      forall p | p in r.store.Values ensures p in vs {
        var id :| id in r.store && r.store[id] == p;
        var i :| 0 <= i < |r.order| && r.order[i] == id;
        assert vs[i] == p;
      }
    }
    vs
  }

  /** `create`: refused for an id already present, which leaves the map as it
      was; otherwise exactly the new entry is added, at the end of the
      insertion order, and the same project is returned. */
  function Create(r: Repo, p: Project): (s: Step<Project>)
    requires Valid(r)
    ensures Valid(s.repo)
    ensures p.id in r.store ==> s == Step(r, Err(ProjectAlreadyExists(FormatUuid(p.id))))
    ensures p.id !in r.store ==>
              && s.result == Ok(p)
              && s.repo.store.Keys == r.store.Keys + {p.id}
              && Lookup(s.repo, p.id) == Some(p)
              && (forall id :: id != p.id ==> Lookup(s.repo, id) == Lookup(r, id))
              && s.repo.order == r.order + [p.id]
  {
    if p.id in r.store then Step(r, Err(ProjectAlreadyExists(FormatUuid(p.id))))
    else Step(Repo(r.order + [p.id], r.store[p.id := p]), Ok(p))
  }

  /** `get_by_id`: `Some` exactly when the id is a key; never an error. */
  function GetById(r: Repo, id: Uuid): (found: Option<Project>)
    requires Valid(r)
    ensures found.Some? <==> id in r.order
    ensures found.Some? ==> found.value.id == id && found.value in r.store.Values
  {
    Lookup(r, id)
  }

  /** `get_all`: the stored projects, newest first, equal creation times in
      insertion order. */
  function GetAll(r: Repo): (all: seq<Project>)
    requires Valid(r)
    ensures NewestFirst(all)
    ensures multiset(all) == multiset(Values(r))
    ensures StableFor(Values(r), all)
    ensures forall p :: p in all <==> p in r.store.Values
  {
    var all := SortNewestFirst(Values(r));
    assert forall p :: p in all <==> p in multiset(Values(r));
    all
  }

  /** `update`: refused for an absent id, which leaves the map as it was;
      otherwise only that entry is replaced and the insertion order is kept. */
  function Update(r: Repo, p: Project): (s: Step<Project>)
    requires Valid(r)
    ensures Valid(s.repo)
    ensures p.id !in r.store ==> s == Step(r, Err(ProjectNotFound(FormatUuid(p.id))))
    ensures p.id in r.store ==>
              && s.result == Ok(p)
              && s.repo.store.Keys == r.store.Keys
              && Lookup(s.repo, p.id) == Some(p)
              && (forall id :: id != p.id ==> Lookup(s.repo, id) == Lookup(r, id))
              && s.repo.order == r.order
  {
    if p.id !in r.store then Step(r, Err(ProjectNotFound(FormatUuid(p.id))))
    else Step(Repo(r.order, r.store[p.id := p]), Ok(p))
  }

  /** The insertion order with one key taken out. */
  function Without(ids: seq<Uuid>, id: Uuid): (r: seq<Uuid>)
    ensures forall x :: x in r <==> x in ids && x != id
    ensures Distinct(ids) ==> Distinct(r)
    ensures id !in ids ==> r == ids
    decreases |ids|
  {
    if |ids| == 0 then []
    else
      var rest := Without(ids[1..], id);
      assert forall x :: x in ids <==> x == ids[0] || x in ids[1..];
      assert Distinct(ids) ==> Distinct(ids[1..]) && ids[0] !in ids[1..];
      if ids[0] == id then rest
      else
        assert Distinct(ids) ==> Distinct([ids[0]] + rest) by {
          if Distinct(ids) {
            forall i, j | 0 <= i < j < |[ids[0]] + rest|
              ensures ([ids[0]] + rest)[i] != ([ids[0]] + rest)[j]
            {
              if i == 0 { assert ([ids[0]] + rest)[j] in rest; }
              else { assert ([ids[0]] + rest)[i] == rest[i - 1]; }
            }
          }
        }
        [ids[0]] + rest
  }

  /** `delete`: true iff the id was present; afterwards it is absent and every
      other entry is as before. */
  function Delete(r: Repo, id: Uuid): (s: (Repo, bool))
    requires Valid(r)
    ensures Valid(s.0)
    ensures s.1 <==> id in r.store
    ensures s.0.store.Keys == r.store.Keys - {id}
    ensures forall other :: other != id ==> Lookup(s.0, other) == Lookup(r, other)
    ensures !s.1 ==> s.0 == r
  {
    if id in r.store then (Repo(Without(r.order, id), r.store - {id}), true)
    else (r, false)
  }

  /** The in-memory repository meets every clause of the port. */
  lemma InMemoryRefinesPort(r: Repo, p: Project, id: Uuid)
    requires Valid(r)
    ensures PortCreate(r, p, Create(r, p))
    ensures PortGet(r, id, GetById(r, id))
    ensures PortGetAll(r, GetAll(r))
    ensures PortUpdate(r, p, Update(r, p))
    ensures PortDelete(r, id, Delete(r, id).0, Delete(r, id).1)
  {
  }

  /** Creating a fresh project and deleting it again restores the repository
      exactly, insertion order included. */
  lemma CreateThenDelete(r: Repo, p: Project)
    requires Valid(r) && p.id !in r.store
    ensures Delete(Create(r, p).repo, p.id) == (r, true)
  {
    var r1 := Create(r, p).repo;
    assert r1.order == r.order + [p.id];
    WithoutAppended(r.order, p.id);
    assert r1.store - {p.id} == r.store;
  }

  lemma {:induction false} WithoutAppended(ids: seq<Uuid>, id: Uuid)
    requires id !in ids
    ensures Without(ids + [id], id) == ids
    decreases |ids|
  {
    if |ids| == 0 {
      assert ids + [id] == [id];
    } else {
      assert (ids + [id])[1..] == ids[1..] + [id];
      WithoutAppended(ids[1..], id);
      assert ids == [ids[0]] + ids[1..];
    }
  }

  /** Three creations with distinct ids, in order, as stored. */
  lemma ThreeCreates(p1: Project, p2: Project, p3: Project)
    requires p1.id != p2.id && p2.id != p3.id && p1.id != p3.id
    ensures var r1 := Create(Empty(), p1).repo;
            var r2 := Create(r1, p2).repo;
            var r3 := Create(r2, p3).repo;
            Valid(r3) && Values(r3) == [p1, p2, p3]
  {
    var r1 := Create(Empty(), p1).repo;
    var r2 := Create(r1, p2).repo;
    var r3 := Create(r2, p3).repo;
    assert r3.order == [p1.id, p2.id, p3.id];
  }

  /** Three projects with increasing creation times, listed in reverse, are
      newest first and keep the per-time order (each time occurs once). */
  lemma ReversedIsStableSort(p1: Project, p2: Project, p3: Project)
    requires p1.createdAt < p2.createdAt < p3.createdAt
    ensures NewestFirst([p3, p2, p1])
    ensures StableFor([p1, p2, p3], [p3, p2, p1])
  {
    forall t: Timestamp ensures CreatedAt([p3, p2, p1], t) == CreatedAt([p1, p2, p3], t) {
      assert [p3, p2, p1][1..] == [p2, p1] && [p2, p1][1..] == [p1] && [p1][1..] == [];
      assert [p1, p2, p3][1..] == [p2, p3] && [p2, p3][1..] == [p3] && [p3][1..] == [];
      CreatedAtHead([p3, p2, p1], t);
      CreatedAtHead([p2, p1], t);
      CreatedAtHead([p1], t);
      CreatedAtHead([p1, p2, p3], t);
      CreatedAtHead([p2, p3], t);
      CreatedAtHead([p3], t);
    }
  }

  /** Listing after creating projects at increasing times returns them
      newest first: creating P1, P2, P3 in order lists [P3, P2, P1]. */
  lemma ListNewestFirstAfterCreates(p1: Project, p2: Project, p3: Project)
    requires p1.id != p2.id && p2.id != p3.id && p1.id != p3.id
    requires p1.createdAt < p2.createdAt < p3.createdAt
    ensures var r1 := Create(Empty(), p1).repo;
            var r2 := Create(r1, p2).repo;
            var r3 := Create(r2, p3).repo;
            GetAll(r3) == [p3, p2, p1]
  {
    var r3 := Create(Create(Create(Empty(), p1).repo, p2).repo, p3).repo;
    ThreeCreates(p1, p2, p3);
    ReversedIsStableSort(p1, p2, p3);
    var all := GetAll(r3);
    assert StableFor([p3, p2, p1], all) by {
      forall t: Timestamp ensures CreatedAt(all, t) == CreatedAt([p3, p2, p1], t) {
        assert CreatedAt(all, t) == CreatedAt(Values(r3), t);
      }
    }
    StableSortUnique([p3, p2, p1], all);
  }
}
