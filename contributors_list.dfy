/**
 * The contributor list on the project's management page: it starts from the
 * given contributors and applies each successful update or deletion locally.
 */
module ContributorsList {
  import opened Wrappers
  import Lists
  import opened ClientProjects

  class ContributorsListView {
    var contributors: seq<Contributor>
    var error: Option<string>

    constructor (contributors: seq<Contributor>)
      ensures this.contributors == contributors && error.None?
    {
      this.contributors := contributors;
      error := None;
    }

    /**
     * `onUpdate`: a failed request shows the response text and keeps the
     * list; a successful one puts the new entry wherever the id matched and
     * leaves every other entry in place.
     */
    method OnUpdate(contributor: Contributor, ok: bool, errorText: string)
      modifies this
      ensures !ok ==> contributors == old(contributors) && error == Some(errorText)
      ensures ok ==> (error == old(error) &&
        contributors == Lists.MapById(old(contributors), ContributorId, contributor.id, (_: Contributor) => contributor))
      ensures |contributors| == |old(contributors)|
      ensures ok ==> forall k :: 0 <= k < |contributors| ==>
        contributors[k] == if old(contributors)[k].id == contributor.id then contributor else old(contributors)[k]
    {
      if !ok {
        error := Some(errorText);
        return;
      }
      contributors := Lists.MapById(contributors, ContributorId, contributor.id, (_: Contributor) => contributor);
    }

    /**
     * `onDelete`: a failed request shows the response text and keeps the
     * list; a successful one keeps, in order, exactly the entries with
     * another id.
     */
    method OnDelete(id: string, ok: bool, errorText: string)
      modifies this
      ensures !ok ==> contributors == old(contributors) && error == Some(errorText)
      ensures ok ==> error == old(error) && contributors == Lists.RemoveById(old(contributors), ContributorId, id)
      ensures ok ==> forall x :: x in contributors <==> x in old(contributors) && x.id != id
    {
      if !ok {
        error := Some(errorText);
        return;
      }
      var before := contributors;
      contributors := Lists.RemoveById(contributors, ContributorId, id);
      forall x ensures x in contributors <==> x in before && x.id != id {
        Lists.RemoveByIdMembers(before, ContributorId, id, x);
        assert ContributorId(x) == x.id;
      }
    }
  }
}
