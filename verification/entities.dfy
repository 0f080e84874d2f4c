/** The `Project` record of the backend's domain core. Timestamps are readings
    of a clock modelled as a natural number; the id comes from a fresh-id
    oracle and is passed in. */
module Entities {
  import opened Wrappers
  import opened Uuids

  type Timestamp = nat

  /** A project. Equality is structural, as for the Python dataclass: two
      projects with equal fields are equal. The `prd` field is the PRD text,
      which the service layer reads and writes. */
  datatype Project = Project(
    id: Uuid,
    name: string,
    prd: string,
    createdAt: Timestamp,
    updatedAt: Option<Timestamp>)

  /** `Project.create`: a new project stamped with the current time and never
      updated. `prd` defaults to the empty text where the caller gives none. */
  function CreateProject(id: Uuid, name: string, prd: string, now: Timestamp): Project {
    Project(id, name, prd, now, None)
  }

  /** `update_name`: new name, `updated_at` stamped with the current time. */
  function UpdateName(p: Project, name: string, now: Timestamp): (q: Project)
    ensures q.name == name && q.updatedAt == Some(now)
    ensures q.id == p.id && q.createdAt == p.createdAt && q.prd == p.prd
  {
    p.(name := name, updatedAt := Some(now))
  }

  /** `update_prd`, mirroring `update_name` for the PRD text. */
  function UpdatePrd(p: Project, prd: string, now: Timestamp): (q: Project)
    ensures q.prd == prd && q.updatedAt == Some(now)
    ensures q.id == p.id && q.createdAt == p.createdAt && q.name == p.name
  {
    p.(prd := prd, updatedAt := Some(now))
  }

  /** With a clock that never runs backwards, a project's last update is never
      earlier than its creation. */
  ghost predicate StampsOrdered(p: Project) {
    p.updatedAt.Some? ==> p.updatedAt.value >= p.createdAt
  }

  /** A freshly created project keeps the given name and text, is stamped now,
      and is not yet updated; renaming it later keeps its identity and creation
      time and orders the stamps. */
  lemma CreateThenRename(id: Uuid, name: string, prd: string, t0: Timestamp, name': string, t1: Timestamp)
    requires t0 <= t1
    ensures var p := CreateProject(id, name, prd, t0);
            && p.name == name && p.prd == prd && p.createdAt == t0 && p.updatedAt.None?
            && StampsOrdered(p)
            && var q := UpdateName(p, name', t1);
               q.id == id && q.name == name' && q.createdAt == t0 && q.updatedAt == Some(t1)
               && StampsOrdered(q)
  {
  }

  /** Any later rename or PRD change keeps the stamps ordered. */
  lemma UpdatesKeepStampsOrdered(p: Project, name: string, prd: string, now: Timestamp)
    requires StampsOrdered(p) && now >= p.createdAt
    ensures StampsOrdered(UpdateName(p, name, now))
    ensures StampsOrdered(UpdatePrd(p, prd, now))
  {
  }
}
