/**
 * The contributor's editing page: the same guarded updaters as the owner's
 * page for the items a contributor may edit, with the project's tags kept
 * under `skill_tags`.
 */
module ContributorEdit {
  import opened Wrappers
  import opened ClientProjects

  class ContributorEditor {
    var project: ClientProject
    var availableSkillTags: seq<SkillTag>
    var error: Option<string>

    /** The page starts from the server's copy, with no tags offered yet and no error. */
    constructor (project: ClientProject)
      ensures this.project == project && availableSkillTags == [] && error.None?
    {
      this.project := project;
      availableSkillTags := [];
      error := None;
    }

    /** A callback for an item a contributor may edit: the updater on ok, nothing at all otherwise. */
    method OnEdit(e: Edit, ok: bool)
      requires ContributorMay(e)
      modifies this
      ensures project == if ok then Apply(old(project), e, ContributorTags) else old(project)
      ensures availableSkillTags == old(availableSkillTags) && error == old(error)
    {
      if ok {
        project := Apply(project, e, ContributorTags);
      }
    }

    /** A created tag is appended to the project's `skill_tags` and to the tags offered. */
    method OnCreateSkillTag(ok: bool, tag: SkillTag)
      modifies this
      ensures project == if ok then old(project).(skill_tags := old(project).skill_tags + [tag]) else old(project)
      ensures availableSkillTags == if ok then old(availableSkillTags) + [tag] else old(availableSkillTags)
      ensures error == old(error)
    {
      if ok {
        TagAdded(project, tag);
        project := Apply(project, AddSkillTag(tag), ContributorTags);
        availableSkillTags := availableSkillTags + [tag];
      }
    }
  }
}
