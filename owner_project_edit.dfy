/**
 * The owner's editing page: the client copy of the project, the groups and
 * tags offered for selection, and the error banner. Every callback awaits a
 * server action and applies its updater only when the action reports ok.
 */
module OwnerProjectEdit {
  import opened Wrappers
  import opened Strings
  import opened ClientProjects

  class OwnerProjectEditor {
    var project: ClientProject
    var availableGroups: seq<Group>
    var availableSkillTags: seq<SkillTag>
    var error: Option<string>

    /** The page starts from the server's copy, with nothing offered yet and no error. */
    constructor (project: ClientProject)
      ensures this.project == project && availableGroups == [] && availableSkillTags == [] && error.None?
    {
      this.project := project;
      availableGroups := [];
      availableSkillTags := [];
      error := None;
    }

    /**
     * The title field: the title is set only on ok, while the banner is set
     * on every reply, to its message or cleared when there is none.
     */
    method OnTitleChange(value: string, ok: bool, message: Option<string>)
      modifies this
      ensures project == if ok then old(project).(title := value) else old(project)
      ensures error == if Truthy(message) then message else None
      ensures availableGroups == old(availableGroups) && availableSkillTags == old(availableSkillTags)
    {
      if ok {
        project := project.(title := value);
      }
      error := if Truthy(message) then message else None;
    }

    /** Every other project callback: the edit's updater on ok, nothing at all otherwise. */
    method OnEdit(e: Edit, ok: bool)
      modifies this
      ensures project == if ok then Apply(old(project), e, OwnerTags) else old(project)
      ensures availableGroups == old(availableGroups) && availableSkillTags == old(availableSkillTags)
      ensures error == old(error)
    {
      if ok {
        project := Apply(project, e, OwnerTags);
      }
    }

    /** A new group is offered for selection once the server has created it. */
    method OnCreateGroup(ok: bool, group: Group)
      modifies this
      ensures availableGroups == if ok then old(availableGroups) + [group] else old(availableGroups)
      ensures project == old(project) && availableSkillTags == old(availableSkillTags) && error == old(error)
    {
      if ok {
        availableGroups := availableGroups + [group];
      }
    }

    /** A created tag is appended both to the project's tags and to the tags offered. */
    method OnCreateSkillTag(ok: bool, tag: SkillTag)
      modifies this
      ensures project == if ok then old(project).(skillTags := old(project).skillTags + [tag]) else old(project)
      ensures availableSkillTags == if ok then old(availableSkillTags) + [tag] else old(availableSkillTags)
      ensures availableGroups == old(availableGroups) && error == old(error)
    {
      if ok {
        TagAdded(project, tag);
        project := Apply(project, AddSkillTag(tag), OwnerTags);
        availableSkillTags := availableSkillTags + [tag];
      }
    }
  }
}
