/** The client's project list hook: projects held in the page, newest first,
    and the id of the selected one. Ids and creation times are supplied by
    the caller. */
module UseProjects {
  import opened Wrappers
  import opened Text

  datatype ClientProject = ClientProject(id: string, name: string, createdAt: int)

  datatype State = State(projects: seq<ClientProject>, current: Option<string>)

  /** The hook's starting state. */
  function Initial(): (s: State)
    ensures |s.projects| == 0 && s.current.None?
  {
    State([], None)
  }

  /** `createProject`: the project, with its name trimmed and nothing
      refused, goes in front of the list and becomes the selection. */
  function CreateProject(s: State, name: string, id: string, now: int): (t: State)
    ensures |t.projects| == |s.projects| + 1
    ensures t.projects[1..] == s.projects
    ensures t.projects[0].id == id && t.projects[0].createdAt == now
    ensures t.projects[0].name == Trim(name, JsIsSpace)
    ensures AllSpace(name, JsIsSpace) ==> t.projects[0].name == ""
    ensures t.current == Some(id)
  {
    State([ClientProject(id, Trim(name, JsIsSpace), now)] + s.projects, Some(id))
  }

  /** The entries whose id is not `id`, in their order. */
  function Without(ps: seq<ClientProject>, id: string): (out: seq<ClientProject>)
    ensures |out| <= |ps|
    ensures forall p :: p in out <==> p in ps && p.id != id
    decreases |ps|
  {
    if |ps| == 0 then []
    else if ps[0].id == id then Without(ps[1..], id)
    else [ps[0]] + Without(ps[1..], id)
  }

  /** Removing entries commutes with concatenation: the survivors keep
      their relative order. */
  lemma {:induction false} WithoutAppend(a: seq<ClientProject>, b: seq<ClientProject>, id: string)
    ensures Without(a + b, id) == Without(a, id) + Without(b, id)
    decreases |a|
  {
    if |a| == 0 {
      assert a + b == b;
    } else {
      assert (a + b)[1..] == a[1..] + b;
      WithoutAppend(a[1..], b, id);
    }
  }

  /** A list without the id is left as it is. */
  lemma {:induction false} WithoutAbsent(ps: seq<ClientProject>, id: string)
    requires forall p :: p in ps ==> p.id != id
    ensures Without(ps, id) == ps
    decreases |ps|
  {
    if |ps| > 0 {
      assert ps[0] in ps;
      assert forall p :: p in ps[1..] ==> p in ps;
      WithoutAbsent(ps[1..], id);
      assert Without(ps, id) == [ps[0]] + Without(ps[1..], id);
      assert [ps[0]] + ps[1..] == ps;
    }
  }

  /** `deleteProject`: every entry with the id goes, the others stay in
      order, and the selection is cleared exactly when it was that id. */
  function DeleteProject(s: State, id: string): (t: State)
    ensures forall p :: p in t.projects <==> p in s.projects && p.id != id
    ensures s.current == Some(id) ==> t.current.None?
    ensures s.current != Some(id) ==> t.current == s.current
  {
    State(Without(s.projects, id), if s.current == Some(id) then None else s.current)
  }

  /** Deleting is idempotent, and deleting an id no entry has changes only
      the selection. */
  lemma DeleteIdempotent(s: State, id: string)
    ensures DeleteProject(DeleteProject(s, id), id) == DeleteProject(s, id)
    ensures (forall p :: p in s.projects ==> p.id != id) ==> DeleteProject(s, id).projects == s.projects
  {
    WithoutAbsent(Without(s.projects, id), id);
    if forall p :: p in s.projects ==> p.id != id {
      WithoutAbsent(s.projects, id);
    }
  }

  /** `selectProject`: the selection is set, whether or not the id is in
      the list; the list is untouched. */
  function SelectProject(s: State, id: string): (t: State)
    ensures t.projects == s.projects && t.current == Some(id)
  {
    s.(current := Some(id))
  }

  /** Creating a project under a fresh id and deleting it again restores
      the list and leaves nothing selected. */
  lemma CreateThenDelete(s: State, name: string, id: string, now: int)
    requires forall p :: p in s.projects ==> p.id != id
    ensures var t := DeleteProject(CreateProject(s, name, id, now), id);
            t.projects == s.projects && t.current.None?
  {
    var c := CreateProject(s, name, id, now);
    assert c.projects == [c.projects[0]] + s.projects;
    WithoutAppend([c.projects[0]], s.projects, id);
    WithoutAbsent(s.projects, id);
    assert Without([c.projects[0]], id) == [];
  }

  /** Selecting an id that is not listed and then deleting it clears the
      selection and leaves the list alone. */
  lemma SelectUnlistedThenDelete(s: State, id: string)
    requires forall p :: p in s.projects ==> p.id != id
    ensures DeleteProject(SelectProject(s, id), id) == State(s.projects, None)
  {
    WithoutAbsent(s.projects, id);
  }
}
