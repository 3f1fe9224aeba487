/**
 * The repositories of the `project` package: `ProjectRepository` over the
 * `projects` table and `ProjectChatLinkRepository` over
 * `project_chat_links`, a table without a primary key whose rows are
 * unique per (project_id, chat_id).
 */
module ProjectRepo {
  import opened Wrappers
  import opened Entity
  import opened Common
  import opened Tables
  import opened StringTools

  function ProjectId(p: Project): string { p.id }

  /** `Find` looks in id and project_link. */
  predicate IdOrLink(p: Project, identifier: string) {
    p.id == identifier || p.projectLink == identifier
  }

  predicate OfProvider(p: Project, providerId: string) {
    p.providerId == providerId
  }

  /** `ProjectRepository`: the `projects` table keyed by ID. */
  class ProjectRepository {
    var rows: map<string, Project>

    ghost predicate Valid()
      reads this
    {
      Keyed(rows, ProjectId)
    }

    constructor ()
      ensures Valid() && rows == map[]
    {
      rows := map[];
    }

    /** `Create`: a fresh ID `Pr-` + 7 random runes + counter, then the insert. */
    method Create(project: Project, draw: nat -> string) returns (created: Project, ghost tries: nat)
      requires Valid()
      requires forall i: nat :: IsRandomString(draw(i), 7)
      modifies this
      ensures Valid()
      ensures created == project.(id := MintedId("Pr-", draw(tries), |old(rows)| + 1 + tries))
      ensures created.id !in old(rows)
      ensures rows == old(rows)[created.id := created]
    {
      var id;
      id, tries := MintId(rows, "Pr-", 7, draw);
      created := project.(id := id);
      rows := rows[id := created];
    }

    /** `Find`: a row whose id or project link is the identifier. */
    method Find(identifier: string) returns (r: Result<Project>)
      requires Valid()
      ensures r.Success? <==> exists k | k in rows :: IdOrLink(rows[k], identifier)
      ensures r.Success? ==> r.value in rows.Values && IdOrLink(r.value, identifier)
      ensures r.Failure? ==> r.error == RecordNotFound
    {
      var row := FindFirst(rows, (x: Project) => IdOrLink(x, identifier));
      if row.Some? {
        r := Success(row.value);
      } else {
        r := Failure(RecordNotFound);
      }
    }

    /** `FindMultiple`: every row whose provider_id is `providerId`, each once. */
    method FindMultiple(providerId: string) returns (found: seq<Project>)
      requires Valid()
      ensures Lists(found, rows, ProjectId, (x: Project) => OfProvider(x, providerId))
    {
      found := Select(rows, ProjectId, (x: Project) => OfProvider(x, providerId));
    }

    /** `Update`: fails when no row has the ID; otherwise saves the record with the stored CreatedAt. */
    method Update(project: Project) returns (r: Result<Project>)
      requires Valid()
      modifies this
      ensures Valid()
      ensures project.id !in old(rows) ==> r == Failure(RecordNotFound) && rows == old(rows)
      ensures project.id in old(rows) ==>
        r == Success(project.(createdAt := old(rows)[project.id].createdAt)) && rows == old(rows)[project.id := r.value]
    {
      if project.id !in rows {
        return Failure(RecordNotFound);
      }
      var saved := project.(createdAt := rows[project.id].createdAt);
      rows := rows[project.id := saved];
      r := Success(saved);
    }

    /** `Delete`: the removed row, or an error and no change when the ID is absent. */
    method Delete(id: string) returns (r: Result<Project>)
      requires Valid()
      modifies this
      ensures Valid()
      ensures id !in old(rows) ==> r == Failure(RecordNotFound) && rows == old(rows)
      ensures id in old(rows) ==> r == Success(old(rows)[id]) && rows == old(rows) - {id}
    {
      if id !in rows {
        return Failure(RecordNotFound);
      }
      r := Success(rows[id]);
      rows := rows - {id};
    }

    /** `DeleteMultiple`: removes every row whose provider_id is `providerId` and returns exactly those rows. */
    method DeleteMultiple(providerId: string) returns (removed: seq<Project>)
      requires Valid()
      modifies this
      ensures Valid()
      ensures Lists(removed, old(rows), ProjectId, (x: Project) => OfProvider(x, providerId))
      ensures rows == Without(old(rows), Matching(old(rows), (x: Project) => OfProvider(x, providerId)))
    {
      removed, rows := RemoveMatching(rows, ProjectId, (x: Project) => OfProvider(x, providerId));
    }
  }

  /** `project_id = ? || chat_id = ?` with one dynamically typed argument: a string meets project_id, an integer chat_id. */
  predicate LinkMatches(l: ProjectChatLink, identifier: Dynamic) {
    match identifier
    case Str(s) => l.projectId == s
    case Int64(n) => l.chatId == n
    case OtherInt(n) => l.chatId == n
  }

  /**
   * The rows `DeleteMultiple` deletes: by project_id for a string, by
   * chat_id for an `int64`, none for any other type.
   */
  predicate LinkDeleted(l: ProjectChatLink, identifier: Dynamic) {
    match identifier
    case Str(s) => l.projectId == s
    case Int64(n) => l.chatId == n
    case OtherInt(_) => false
  }

  /** The composite unique key of `project_chat_links`. */
  function LinkPair(l: ProjectChatLink): (string, int) { (l.projectId, l.chatId) }

  predicate SamePair(l: ProjectChatLink, projectId: string, chatId: int) {
    l.projectId == projectId && l.chatId == chatId
  }

  /** `ProjectChatLinkRepository`: project-to-chat links, at most one per (project, chat) pair. */
  class ProjectChatLinkRepository {
    var links: seq<ProjectChatLink>

    ghost predicate Valid()
      reads this
    {
      Distinct(links, LinkPair)
    }

    constructor ()
      ensures Valid() && links == []
    {
      links := [];
    }

    /** `Create`: the insert, refused by the unique index when the pair is already linked. */
    method Create(link: ProjectChatLink) returns (err: Option<Error>)
      requires Valid()
      modifies this
      ensures Valid()
      ensures (exists i | 0 <= i < |old(links)| :: SamePair(old(links)[i], link.projectId, link.chatId)) ==>
        err.Some? && links == old(links)
      ensures (forall i | 0 <= i < |old(links)| :: !SamePair(old(links)[i], link.projectId, link.chatId)) ==>
        err == None && links == old(links) + [link]
    {
      ghost var before := links;
      if exists i | 0 <= i < |links| :: SamePair(links[i], link.projectId, link.chatId) {
        return Some(Error("Duplicate entry for key 'unique_project_to_chat_link_relation'"));
      }
      links := links + [link];
      forall i, j | 0 <= i < j < |links| ensures LinkPair(links[i]) != LinkPair(links[j]) {
        if j == |before| {
          assert !SamePair(before[i], link.projectId, link.chatId);
        }
      }
      err := None;
    }

    /** `Find`: the link of exactly this (project, chat) pair. */
    method Find(projectId: string, chatId: int) returns (r: Result<ProjectChatLink>)
      requires Valid()
      ensures r.Success? <==> exists i | 0 <= i < |links| :: SamePair(links[i], projectId, chatId)
      ensures r.Success? ==> r.value in links && r.value.projectId == projectId && r.value.chatId == chatId
      ensures r.Failure? ==> r.error == RecordNotFound
    {
      var found := Filter(links, (l: ProjectChatLink) => SamePair(l, projectId, chatId));
      if found == [] {
        assert forall i | 0 <= i < |links| :: links[i] !in found;
        return Failure(RecordNotFound);
      }
      assert found[0] in found;
      r := Success(found[0]);
    }

    /** `FindMultiple`: the links whose project_id or chat_id is the identifier. */
    method FindMultiple(identifier: Dynamic) returns (found: seq<ProjectChatLink>)
      requires Valid()
      ensures forall l :: l in found <==> l in links && LinkMatches(l, identifier)
    {
      found := Filter(links, (l: ProjectChatLink) => LinkMatches(l, identifier));
    }

    /** `Delete`: fails when the pair is not linked; otherwise removes the pair's rows and returns the one found. */
    method Delete(projectId: string, chatId: int) returns (r: Result<ProjectChatLink>)
      requires Valid()
      modifies this
      ensures Valid()
      ensures r.Failure? <==> forall i | 0 <= i < |old(links)| :: !SamePair(old(links)[i], projectId, chatId)
      ensures r.Failure? ==> r.error == RecordNotFound && links == old(links)
      ensures r.Success? ==> r.value in old(links) && SamePair(r.value, projectId, chatId)
      ensures r.Success? ==> links == Filter(old(links), (l: ProjectChatLink) => !SamePair(l, projectId, chatId))
    {
      r := Find(projectId, chatId);
      if r.Success? {
        links := Filter(links, (l: ProjectChatLink) => !SamePair(l, projectId, chatId));
        FilterKeepsDistinct(old(links), (l: ProjectChatLink) => !SamePair(l, projectId, chatId), LinkPair);
      }
    }

    /**
     * `DeleteMultiple`: returns every link matching the identifier in either
     * column, and deletes by the identifier's dynamic type.
     */
    method DeleteMultiple(identifier: Dynamic) returns (found: seq<ProjectChatLink>)
      requires Valid()
      modifies this
      ensures Valid()
      ensures found == Filter(old(links), (l: ProjectChatLink) => LinkMatches(l, identifier))
      ensures links == Filter(old(links), (l: ProjectChatLink) => !LinkDeleted(l, identifier))
    {
      found := Filter(links, (l: ProjectChatLink) => LinkMatches(l, identifier));
      links := Filter(links, (l: ProjectChatLink) => !LinkDeleted(l, identifier));
      FilterKeepsDistinct(old(links), (l: ProjectChatLink) => !LinkDeleted(l, identifier), LinkPair);
    }
  }

  /**
   * For a string or an `int64` identifier, what `DeleteMultiple` deletes is
   * exactly what it returns. It rests on the
   * matching without MySQL's string/number conversion: under MySQL a numeric
   * string also finds the chat with that number, which the delete does not remove.
   */
  lemma DeleteMultipleRemovesWhatItReturns(links: seq<ProjectChatLink>, identifier: Dynamic, l: ProjectChatLink)
    requires identifier.Str? || identifier.Int64?
    requires l in links
    ensures l in Filter(links, (x: ProjectChatLink) => LinkMatches(x, identifier))
        <==> l !in Filter(links, (x: ProjectChatLink) => !LinkDeleted(x, identifier))
  {
  }

  /** For any other integer type, `DeleteMultiple` returns the chat's links but deletes nothing. */
  lemma OtherIntegerDeletesNothing(links: seq<ProjectChatLink>, n: int)
    ensures Filter(links, (x: ProjectChatLink) => !LinkDeleted(x, OtherInt(n))) == links
  {
    FilterAll(links, (x: ProjectChatLink) => !LinkDeleted(x, OtherInt(n)));
  }
}
