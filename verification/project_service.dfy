/** `ProjectService`, the older project service that takes parsed UUIDs and
    does no name validation of its own. */
module ProjectService {
  import opened Wrappers
  import opened Uuids
  import opened Entities
  import opened Errors
  import opened Repository
  import ForgebaseService

  /** `create_project`: any name, the empty text included, is stored as
      given, with an empty PRD. */
  function CreateProject(r: Repo, name: string, id: Uuid, now: Timestamp): (s: Step<Project>)
    requires Valid(r)
    ensures Valid(s.repo)
    ensures id in r.store ==> s == Step(r, Err(ProjectAlreadyExists(FormatUuid(id))))
    ensures id !in r.store ==>
              && s.result == Ok(Project(id, name, "", now, None))
              && Lookup(s.repo, id) == Some(s.result.value)
  {
    Repository.Create(r, Entities.CreateProject(id, name, "", now))
  }

  /** `get_project`: an absent id raises `ProjectNotFound` carrying the
      canonical text of the id. */
  function GetProject(r: Repo, id: Uuid): (res: Result<Project, Error>)
    requires Valid(r)
    ensures id !in r.store <==> res == Err(ProjectNotFound(FormatUuid(id)))
    ensures res.Ok? ==> res.value.id == id && Lookup(r, id) == Some(res.value)
  {
    match GetById(r, id)
    case None => Err(ProjectNotFound(FormatUuid(id)))
    case Some(p) => Ok(p)
  }

  /** `get_project_optional`: the same lookup, with absence as `None`. */
  function GetProjectOptional(r: Repo, id: Uuid): (found: Option<Project>)
    requires Valid(r)
    ensures found.Some? <==> GetProject(r, id).Ok?
    ensures found.Some? ==> found.value == GetProject(r, id).value
  {
    GetById(r, id)
  }

  /** `list_projects`: the repository's `get_all`, unchanged: every stored
      project once per entry, newest first, ties in insertion order. */
  function ListProjects(r: Repo): (all: seq<Project>)
    requires Valid(r)
    ensures all == GetAll(r)
    ensures NewestFirst(all)
    ensures multiset(all) == multiset(Values(r))
    ensures StableFor(Values(r), all)
    ensures forall p :: p in all <==> p in r.store.Values
  {
    GetAll(r)
  }

  /** `update_project`: unlike `ForgebaseService`, the project is renamed
      and stamped `now` even when the name does not change. */
  function UpdateProject(r: Repo, id: Uuid, name: string, now: Timestamp): (s: Step<Project>)
    requires Valid(r)
    ensures Valid(s.repo)
    ensures id !in r.store ==> s == Step(r, Err(ProjectNotFound(FormatUuid(id))))
    ensures id in r.store ==>
              && s.result.Ok?
              && s.result.value.name == name
              && s.result.value.updatedAt == Some(now)
              && s.result.value.createdAt == r.store[id].createdAt
              && Lookup(s.repo, id) == Some(s.result.value)
              && (forall other :: other != id ==> Lookup(s.repo, other) == Lookup(r, other))
  {
    match GetProject(r, id)
    case Err(e) => Step(r, Err(e))
    case Ok(p) => Repository.Update(r, UpdateName(p, name, now))
  }

  /** `delete_project`: whether a project was removed. */
  function DeleteProject(r: Repo, id: Uuid): (s: Step<bool>)
    requires Valid(r)
    ensures Valid(s.repo)
    ensures s.result == Ok(id in r.store)
    ensures s.repo.store.Keys == r.store.Keys - {id}
  {
    var (after, removed) := Repository.Delete(r, id);
    Step(after, Ok(removed))
  }

  /** Renaming to the current name still moves `updated_at`, where
      `ForgebaseService.UpdateProject` leaves the project untouched. */
  lemma SameNameStillStamps(r: Repo, id: Uuid, now: Timestamp)
    requires Valid(r) && id in r.store && r.store[id].updatedAt != Some(now)
    ensures var p := r.store[id];
            && UpdateProject(r, id, p.name, now).repo != r
            && ForgebaseService.UpdateProject(r, FormatUuid(id), Some(p.name), None, now).repo == r
  {
    var p := r.store[id];
    var s := UpdateProject(r, id, p.name, now);
    assert Lookup(s.repo, id) != Lookup(r, id);
    ForgebaseService.UpdateWithoutChangeIsIdentity(r, id, now);
    ParseFormat(id);
    assert ForgebaseService.ApplyChanges(p, Some(p.name), None, now) == p;
    assert r.store[id := p] == r.store;
  }

  /** Create, rename, read back: the name is the new one and the project
      carries both stamps. */
  lemma CreateRenameGet(r: Repo, id: Uuid, n1: string, n2: string, t0: Timestamp, t1: Timestamp)
    requires Valid(r) && id !in r.store
    ensures var r1 := CreateProject(r, n1, id, t0).repo;
            var r2 := UpdateProject(r1, id, n2, t1).repo;
            GetProject(r2, id) == Ok(Project(id, n2, "", t0, Some(t1)))
  {
  }
}
