/**
 * The project service's rules: a project's name, description and link,
 * the link of a project to a Telegram chat, and their lookups.
 */
module ProjectService {
  import opened Wrappers
  import opened Text
  import opened Entity
  import opened Common
  import opened Tables
  import opened ProjectRepo

  const NameEmptyMessage := "project name can not be empty"
  const NameLengthMessage := "project name should not be longer than 1000 characters"
  const NameTakenMessage := "project name already exists in your project list"
  const DescriptionLengthMessage := "project description should not be longer than 2000 characters"
  const LinkPatternMessage := "project link shouldn't contain space or any special characters"
  const LinkLengthMessage := "project link should not be longer than 20 characters"
  const LinkTakenMessage := "project link is taken, link should be unique"
  const ChatTypeMessage := "invalid chat type selected"
  const ChatIdMessage := "invalid chat id used"
  const ChatLinkedMessage := "chat already linked to the project"
  const NoChatLinkMessage := "no project to chat link found"

  /* -------------------------------- project -------------------------------- */

  /** The name rule: not blank, then at most 1000 bytes. */
  function ProjectNameError(name: string): Option<Error> {
    if IsBlank(name) then Some(Error(NameEmptyMessage))
    else if ByteLen(name) > 1000 then Some(Error(NameLengthMessage))
    else None
  }

  /** The format rule on an already lower-cased link: `^\w+$`, then at most 20 bytes. */
  function LinkFormatError(link: string): Option<Error> {
    if !IsWord(link) then Some(Error(LinkPatternMessage))
    else if ByteLen(link) > 20 then Some(Error(LinkLengthMessage))
    else None
  }

  /** Another project of the same provider, with another ID, already has this name. */
  ghost predicate NameTaken(rows: map<string, Project>, project: Project) {
    && !IsBlank(project.providerId)
    && exists p | p in rows.Values :: OfProvider(p, project.providerId) && p.id != project.id && p.name == project.name
  }

  /**
   * What `Find(project.ID)` may hand back for an update: some row whose ID or
   * link is that ID, or nothing when no row is.
   */
  ghost predicate StoredVersion(rows: map<string, Project>, id: string, prev: Option<Project>) {
    && (prev.Some? <==> exists k | k in rows :: IdOrLink(rows[k], id))
    && (prev.Some? ==> prev.value in rows.Values && IdOrLink(prev.value, id))
  }

  /**
   * The errors of a project whose link is already lower-cased. `taken` says
   * whether a sibling has the name and `prev` is the stored version for an
   * update. Link uniqueness is asked for a new project, and for an update
   * only when the link changed.
   */
  function ProjectErrors(project: Project, taken: bool, prev: Option<Project>, check: TableCheck): (errs: ErrMap)
    ensures errs.Keys <= {"name", "description", "project_link"}
    ensures ErrorAt(errs, "name") ==
      (if ProjectNameError(project.name).Some? then ProjectNameError(project.name)
       else if taken then Some(Error(NameTakenMessage)) else None)
    ensures ErrorAt(errs, "description") ==
      (if ByteLen(project.description) > 2000 then Some(Error(DescriptionLengthMessage)) else None)
    ensures LinkFormatError(project.projectLink).Some? ==>
      ErrorAt(errs, "project_link") == LinkFormatError(project.projectLink)
    ensures LinkFormatError(project.projectLink).None? ==>
      (ErrorAt(errs, "project_link").Some? <==>
         (project.id == "" || (prev.Some? && prev.value.projectLink != project.projectLink))
         && !IsUnique("project_link", Str(project.projectLink), "projects", check))
    ensures ErrorAt(errs, "project_link").Some? && LinkFormatError(project.projectLink).None? ==>
      errs["project_link"] == Error(LinkTakenMessage)
  {
    var name := if ProjectNameError(project.name).Some? then ProjectNameError(project.name)
                else if taken then Some(Error(NameTakenMessage)) else None;
    var description := if ByteLen(project.description) > 2000 then Some(Error(DescriptionLengthMessage)) else None;
    var asked := project.id == "" || (prev.Some? && prev.value.projectLink != project.projectLink);
    var link := if LinkFormatError(project.projectLink).Some? then LinkFormatError(project.projectLink)
                else if asked && !IsUnique("project_link", Str(project.projectLink), "projects", check)
                then Some(Error(LinkTakenMessage)) else None;
    Note(Note(Note(map[], "name", name), "description", description), "project_link", link)
  }

  /** `FindMultipleProjects`: the projects of a provider; a blank provider ID gives none without a query. */
  method FindMultipleProjects(repo: ProjectRepository, providerId: string) returns (found: seq<Project>)
    requires repo.Valid()
    ensures IsBlank(providerId) ==> found == []
    ensures !IsBlank(providerId) ==> Lists(found, repo.rows, ProjectId, (x: Project) => OfProvider(x, providerId))
  {
    if IsBlank(providerId) {
      return [];
    }
    found := repo.FindMultiple(providerId);
  }

  /**
   * `ValidateProject`: the link is lower-cased in place, then the name,
   * sibling-name, description, link-format and link-uniqueness rules are
   * applied.
   */
  method ValidateProject(repo: ProjectRepository, project: Project, check: TableCheck)
    returns (errs: Option<ErrMap>, updated: Project)
    requires repo.Valid()
    ensures updated == Lowered(project)
    ensures project.id == "" ==> errs == Reported(ProjectErrors(updated, NameTaken(repo.rows, project), None, check))
    ensures project.id != "" ==> exists prev ::
      StoredVersion(repo.rows, project.id, prev) && errs == Reported(ProjectErrors(updated, NameTaken(repo.rows, project), prev, check))
  {
    var taken := false;
    if ProjectNameError(project.name).None? {
      var siblings := FindMultipleProjects(repo, project.providerId);
      var i := 0;
      while i < |siblings|
        invariant 0 <= i <= |siblings|
        invariant !taken
        invariant forall j | 0 <= j < i :: !(siblings[j].id != project.id && siblings[j].name == project.name)
        decreases |siblings| - i
      {
        if siblings[i].id != project.id && siblings[i].name == project.name {
          taken := true;
          break;
        }
        i := i + 1;
      }
      assert taken == NameTaken(repo.rows, project) by {
        if taken {
          assert siblings[i] in siblings;
        } else if !IsBlank(project.providerId) {
          forall p | p in repo.rows.Values && OfProvider(p, project.providerId)
            ensures !(p.id != project.id && p.name == project.name)
          {
            assert p in siblings;
          }
        }
      }
    }
    updated := Lowered(project);
    if project.id == "" {
      errs := Reported(ProjectErrors(updated, taken, None, check));
    } else {
      var found := repo.Find(project.id);
      var prev := if found.Success? then Some(found.value) else None;
      assert StoredVersion(repo.rows, project.id, prev);
      errs := Reported(ProjectErrors(updated, taken, prev, check));
    }
  }

  /** The project as `ValidateProject` leaves it: the link lower-cased. */
  function Lowered(project: Project): Project {
    project.(projectLink := ToLower(project.projectLink))
  }

  /**
   * Validating the rewritten project again reports the same errors and
   * rewrites nothing more: lower-casing the link a second time changes nothing.
   */
  lemma ProjectRevalidationAgrees(project: Project, taken: bool, prev: Option<Project>, check: TableCheck)
    ensures Lowered(Lowered(project)) == Lowered(project)
    ensures ProjectErrors(Lowered(Lowered(project)), taken, prev, check) == ProjectErrors(Lowered(project), taken, prev, check)
  {
    ToLowerProperties(project.projectLink);
  }

  /** A lower-cased project link passes the format rule exactly when the supplied one is 1 to 20 word runes. */
  lemma LinkFormatIgnoresCase(link: string)
    ensures LinkFormatError(ToLower(link)).None? <==> IsWord(link) && ByteLen(link) <= 20
  {
    ToLowerProperties(link);
  }

  /* ------------------------------ chat links ------------------------------- */

  /** The chat link errors; `linked` says whether the (project, chat) pair is already linked. */
  function ChatLinkErrors(link: ProjectChatLink, linked: bool): (errs: ErrMap)
    ensures errs.Keys <= {"type", "chat_id"}
    ensures ErrorAt(errs, "type") ==
      (if InFold(ValidChatTypes, link.linkType) then None else Some(Error(ChatTypeMessage)))
    ensures ErrorAt(errs, "chat_id") ==
      (if linked then Some(Error(ChatLinkedMessage))
       else if link.chatId == 0 then Some(Error(ChatIdMessage)) else None)
  {
    var chatType := if InFold(ValidChatTypes, link.linkType) then None else Some(Error(ChatTypeMessage));
    var chatId := if linked then Some(Error(ChatLinkedMessage))
                  else if link.chatId == 0 then Some(Error(ChatIdMessage)) else None;
    Note(Note(map[], "type", chatType), "chat_id", chatId)
  }

  /** `FindProjectChatLink`: a blank project ID fails without a query; every failure carries one message. */
  method FindProjectChatLink(repo: ProjectChatLinkRepository, projectId: string, chatId: int)
    returns (r: Result<ProjectChatLink>)
    requires repo.Valid()
    ensures r.Success? <==> !IsBlank(projectId) && exists i | 0 <= i < |repo.links| :: SamePair(repo.links[i], projectId, chatId)
    ensures r.Success? ==> r.value in repo.links && SamePair(r.value, projectId, chatId)
    ensures r.Failure? ==> r.error == Error(NoChatLinkMessage)
  {
    if IsBlank(projectId) {
      return Failure(Error(NoChatLinkMessage));
    }
    var found := repo.Find(projectId, chatId);
    if found.Failure? {
      return Failure(Error(NoChatLinkMessage));
    }
    r := found;
  }

  /** The pair is already linked, as `FindProjectChatLink` sees it. */
  ghost predicate Linked(links: seq<ProjectChatLink>, link: ProjectChatLink) {
    !IsBlank(link.projectId) && exists i | 0 <= i < |links| :: SamePair(links[i], link.projectId, link.chatId)
  }

  /**
   * `ValidateProjectChatLink`: the chat type must be one of the chat types
   * ignoring case, the chat ID must not be 0, and the pair must not be
   * linked yet; the last rule replaces the chat ID message.
   */
  method ValidateProjectChatLink(repo: ProjectChatLinkRepository, link: ProjectChatLink) returns (errs: Option<ErrMap>)
    requires repo.Valid()
    ensures errs == Reported(ChatLinkErrors(link, Linked(repo.links, link)))
  {
    var validType := ContainsFold(ValidChatTypes, link.linkType);
    var found := FindProjectChatLink(repo, link.projectId, link.chatId);
    var chatType := if validType then None else Some(Error(ChatTypeMessage));
    var chatId := if found.Success? then Some(Error(ChatLinkedMessage))
                  else if link.chatId == 0 then Some(Error(ChatIdMessage)) else None;
    errs := Reported(Note(Note(map[], "type", chatType), "chat_id", chatId));
  }

  /** A chat link passes exactly when its type is known, its chat ID is set and the pair is new. */
  lemma ChatLinkAcceptedIff(link: ProjectChatLink, linked: bool)
    ensures Reported(ChatLinkErrors(link, linked)).None? <==>
      InFold(ValidChatTypes, link.linkType) && link.chatId != 0 && !linked
  {
    var errs := ChatLinkErrors(link, linked);
    if |errs| == 0 {
      assert errs.Keys == {};
      assert ErrorAt(errs, "type").None? && ErrorAt(errs, "chat_id").None?;
    } else {
      var k :| k in errs;
    }
  }

  /**
   * `FindMultipleProjectChatLinks`: only a blank string identifier is
   * answered with nothing; an integer identifier always reaches the table.
   */
  method FindMultipleProjectChatLinks(repo: ProjectChatLinkRepository, identifier: Dynamic)
    returns (found: seq<ProjectChatLink>)
    requires repo.Valid()
    ensures identifier.Str? && IsBlank(identifier.s) ==> found == []
    ensures !(identifier.Str? && IsBlank(identifier.s)) ==>
      forall l :: l in found <==> l in repo.links && LinkMatches(l, identifier)
  {
    if identifier.Str? && IsBlank(identifier.s) {
      return [];
    }
    found := repo.FindMultiple(identifier);
  }

  /** A project passes exactly when every rule holds. */
  lemma ProjectAcceptedIff(project: Project, taken: bool, prev: Option<Project>, check: TableCheck)
    ensures Reported(ProjectErrors(project, taken, prev, check)).None? <==>
      && ProjectNameError(project.name).None? && !taken
      && ByteLen(project.description) <= 2000
      && LinkFormatError(project.projectLink).None?
      && ((project.id == "" || (prev.Some? && prev.value.projectLink != project.projectLink))
          ==> IsUnique("project_link", Str(project.projectLink), "projects", check))
  {
    var errs := ProjectErrors(project, taken, prev, check);
    if |errs| == 0 {
      assert errs.Keys == {};
      assert ErrorAt(errs, "name").None? && ErrorAt(errs, "description").None? && ErrorAt(errs, "project_link").None?;
    } else {
      var k :| k in errs;
    }
  }
}
