/**
 * The project as the editing pages hold it in the browser, and the pure
 * updaters that every successful server action applies to it: append,
 * remove by id, replace by id, and copying the remaining storage from the
 * response.
 */
module ClientProjects {
  import opened Wrappers
  import Lists

  datatype Visibility = Draft | Public
  datatype Role = Editor | Viewer

  datatype Contributor = Contributor(id: string, name: string, email: string, role: Role)
  datatype SkillTag = SkillTag(id: string, name: string)
  datatype Group = Group(id: string, name: string)
  datatype Image = Image(id: string, url: string, caption: string)
  datatype Link = Link(id: string, link: string, coverText: string)
  datatype Question = Question(id: string, questionText: string, answerText: string)

  /**
   * The thumbnail object. A caption change spreads the previous one, so a
   * thumbnail made from nothing has only its caption.
   */
  datatype Thumbnail = Thumbnail(url: Option<string>, alt: Option<string>, id: Option<string>)

  /**
   * The client copy of a project. The owner's page keeps the project's tags
   * under `skillTags` and the contributor's page under `skill_tags`; both
   * fields are here, since each page writes only its own.
   */
  datatype ClientProject = ClientProject(
    title: string, visibility: Visibility, group: Option<Group>,
    contributors: seq<Contributor>, skillTags: seq<SkillTag>, skill_tags: seq<SkillTag>,
    images: seq<Image>, thumbnail: Option<Thumbnail>, links: seq<Link>,
    description: string, questions: seq<Question>, storageRemaining: Option<int>)

  function ContributorId(c: Contributor): string { c.id }
  function TagId(t: SkillTag): string { t.id }
  function ImageId(i: Image): string { i.id }
  function LinkId(l: Link): string { l.id }
  function QuestionId(q: Question): string { q.id }

  /** The tag list an editing page writes. */
  datatype TagField = OwnerTags | ContributorTags

  /** What a server action reported, as the updater it triggers on success. */
  datatype Edit =
    | SetVisibility(visibility: Visibility)
    | SetGroup(newGroup: Option<Group>)
    | AddContributor(contributorId: string)
    | RemoveContributor(contributorId: string)
    | UpdateContributor(contributor: Contributor)
    | SetThumbnail(url: string, altText: string, imageId: string, storage: int)
    | SetThumbnailCaption(caption: string)
    | DeleteThumbnail(storage: int)
    | AddImage(image: Image, storage: int)
    | SetImageCaption(imageId: string, caption: string)
    | DeleteImage(imageId: string, storage: int)
    | AddSkillTag(tag: SkillTag)
    | RemoveSkillTag(tagId: string)
    | AddLink(newLink: Link)
    | ChangeLink(newLink: Link)
    | DeleteLink(linkId: string)
    | SetDescription(description: string)
    | AddQuestion(question: Question)
    | ChangeQuestion(question: Question)
    | DeleteQuestion(questionId: string)

  /** The entry a new contributor gets before anyone fills it in. */
  function BlankContributor(id: string): Contributor {
    Contributor(id, "", "", Viewer)
  }

  /** The `prev => ({ ...prev, ... })` updater for an edit. */
  function Apply(p: ClientProject, e: Edit, field: TagField): ClientProject {
    match e
    case SetVisibility(v) => p.(visibility := v)
    case SetGroup(g) => p.(group := g)
    case AddContributor(id) => p.(contributors := p.contributors + [BlankContributor(id)])
    case RemoveContributor(id) => p.(contributors := Lists.RemoveById(p.contributors, ContributorId, id))
    case UpdateContributor(c) =>
      p.(contributors := Lists.MapById(p.contributors, ContributorId, c.id, (_: Contributor) => c))
    case SetThumbnail(url, altText, imageId, storage) =>
      p.(thumbnail := Some(Thumbnail(Some(url), Some(altText), Some(imageId))), storageRemaining := Some(storage))
    case SetThumbnailCaption(caption) =>
      var t := p.thumbnail.GetOr(Thumbnail(None, None, None));
      p.(thumbnail := Some(t.(alt := Some(caption))))
    case DeleteThumbnail(storage) => p.(thumbnail := None, storageRemaining := Some(storage))
    case AddImage(image, storage) => p.(images := p.images + [image], storageRemaining := Some(storage))
    case SetImageCaption(id, caption) =>
      p.(images := Lists.MapById(p.images, ImageId, id, (i: Image) => i.(caption := caption)))
    case DeleteImage(id, storage) =>
      p.(images := Lists.RemoveById(p.images, ImageId, id), storageRemaining := Some(storage))
    case AddSkillTag(t) =>
      if field == OwnerTags then p.(skillTags := p.skillTags + [t])
      else p.(skill_tags := p.skill_tags + [t])
    case RemoveSkillTag(id) =>
      if field == OwnerTags then p.(skillTags := Lists.RemoveById(p.skillTags, TagId, id))
      else p.(skill_tags := Lists.RemoveById(p.skill_tags, TagId, id))
    case AddLink(l) => p.(links := p.links + [l])
    case ChangeLink(l) => p.(links := Lists.MapById(p.links, LinkId, l.id, (_: Link) => l))
    case DeleteLink(id) => p.(links := Lists.RemoveById(p.links, LinkId, id))
    case SetDescription(d) => p.(description := d)
    case AddQuestion(q) => p.(questions := p.questions + [q])
    case ChangeQuestion(q) => p.(questions := Lists.MapById(p.questions, QuestionId, q.id, (_: Question) => q))
    case DeleteQuestion(id) => p.(questions := Lists.RemoveById(p.questions, QuestionId, id))
  }

  /** The edits the contributor's page can make: none on visibility, group or contributors. */
  predicate ContributorMay(e: Edit) {
    !(e.SetVisibility? || e.SetGroup? || e.AddContributor? || e.RemoveContributor? || e.UpdateContributor?)
  }

  // ---------------------------------------------------------------- contributors

  /** Adding a contributor appends exactly one blank viewer with the returned id, and changes nothing else. */
  lemma ContributorAdded(p: ClientProject, id: string, field: TagField)
    ensures var q := Apply(p, AddContributor(id), field);
      q == p.(contributors := p.contributors + [Contributor(id, "", "", Viewer)]) &&
      |q.contributors| == |p.contributors| + 1 && q.contributors[|p.contributors|].role == Viewer
  {
  }

  /** Removing a contributor keeps exactly the entries with another id, and changes nothing else. */
  lemma ContributorRemoved(p: ClientProject, id: string, field: TagField)
    ensures var q := Apply(p, RemoveContributor(id), field);
      q.(contributors := p.contributors) == p &&
      (forall x :: x in q.contributors <==> x in p.contributors && x.id != id) &&
      (forall k :: 0 <= k < |q.contributors| ==> q.contributors[k].id != id)
  {
    var r := Lists.RemoveById(p.contributors, ContributorId, id);
    assert Apply(p, RemoveContributor(id), field) == p.(contributors := r);
    forall x ensures x in r <==> x in p.contributors && x.id != id {
      Lists.RemoveByIdMembers(p.contributors, ContributorId, id, x);
      assert ContributorId(x) == x.id;
    }
  }

  /**
   * Updating a contributor puts the new entry wherever the id matched and
   * leaves every other entry where it was, and changes nothing else.
   */
  lemma ContributorUpdated(p: ClientProject, c: Contributor, field: TagField)
    ensures var q := Apply(p, UpdateContributor(c), field);
      q.(contributors := p.contributors) == p && |q.contributors| == |p.contributors| &&
      (forall k :: 0 <= k < |p.contributors| ==>
         q.contributors[k] == if p.contributors[k].id == c.id then c else p.contributors[k])
  {
    var r := Lists.MapById(p.contributors, ContributorId, c.id, (_: Contributor) => c);
    assert Apply(p, UpdateContributor(c), field) == p.(contributors := r);
  }

  /** A contributor added and then removed leaves the project as it was, as long as the returned id was new. */
  lemma ContributorRoundTrip(p: ClientProject, id: string, field: TagField)
    requires forall k :: 0 <= k < |p.contributors| ==> p.contributors[k].id != id
    ensures Apply(Apply(p, AddContributor(id), field), RemoveContributor(id), field) == p
  {
    var added := Apply(p, AddContributor(id), field);
    assert added == p.(contributors := p.contributors + [BlankContributor(id)]);
    var back := Apply(added, RemoveContributor(id), field);
    assert back == added.(contributors := Lists.RemoveById(added.contributors, ContributorId, id));
    Lists.AppendThenRemove(p.contributors, BlankContributor(id), ContributorId);
    assert back.contributors == p.contributors;
  }

  /** Removing an id after updating the entry with that id gives the same project as removing it straight away. */
  lemma UpdateThenRemove(p: ClientProject, c: Contributor, field: TagField)
    ensures Apply(Apply(p, UpdateContributor(c), field), RemoveContributor(c.id), field) ==
            Apply(p, RemoveContributor(c.id), field)
  {
    var f := (_: Contributor) => c;
    var mapped := Lists.MapById(p.contributors, ContributorId, c.id, f);
    var updated := Apply(p, UpdateContributor(c), field);
    assert updated == p.(contributors := mapped);
    Lists.MapByIdKeepsOthers(p.contributors, ContributorId, c.id, f);
    var removed := Lists.RemoveById(p.contributors, ContributorId, c.id);
    assert Apply(updated, RemoveContributor(c.id), field) == p.(contributors := removed);
    assert Apply(p, RemoveContributor(c.id), field) == p.(contributors := removed);
  }

  // ---------------------------------------------------------------- images and thumbnail

  /** A new thumbnail replaces the old one and sets the storage left, and nothing else changes. */
  lemma ThumbnailSet(p: ClientProject, url: string, altText: string, imageId: string, storage: int, field: TagField)
    ensures var q := Apply(p, SetThumbnail(url, altText, imageId, storage), field);
      q.(thumbnail := p.thumbnail, storageRemaining := p.storageRemaining) == p &&
      q.thumbnail == Some(Thumbnail(Some(url), Some(altText), Some(imageId))) &&
      q.storageRemaining == Some(storage)
  {
  }

  /**
   * A caption change keeps the rest of the thumbnail, or makes one with only
   * the caption when there was none, and nothing else changes.
   */
  lemma ThumbnailCaptioned(p: ClientProject, caption: string, field: TagField)
    ensures var q := Apply(p, SetThumbnailCaption(caption), field);
      q.(thumbnail := p.thumbnail) == p && q.thumbnail.Some? && q.thumbnail.value.alt == Some(caption) &&
      (p.thumbnail.Some? ==> q.thumbnail.value.url == p.thumbnail.value.url &&
                             q.thumbnail.value.id == p.thumbnail.value.id) &&
      (p.thumbnail.None? ==> q.thumbnail.value.url.None? && q.thumbnail.value.id.None?)
  {
  }

  /** Deleting the thumbnail clears it and sets the storage left, and nothing else changes. */
  lemma ThumbnailDeleted(p: ClientProject, storage: int, field: TagField)
    ensures var q := Apply(p, DeleteThumbnail(storage), field);
      q.(thumbnail := p.thumbnail, storageRemaining := p.storageRemaining) == p &&
      q.thumbnail.None? && q.storageRemaining == Some(storage)
  {
  }

  /** Adding an image appends it and sets the storage left, and nothing else changes. */
  lemma ImageAdded(p: ClientProject, image: Image, storage: int, field: TagField)
    ensures var q := Apply(p, AddImage(image, storage), field);
      q.(images := p.images, storageRemaining := p.storageRemaining) == p &&
      q.images == p.images + [image] && q.storageRemaining == Some(storage)
  {
  }

  /**
   * A caption change rewrites the caption of the images with that id and
   * nothing else about any image, and nothing else changes.
   */
  lemma ImageCaptioned(p: ClientProject, id: string, caption: string, field: TagField)
    ensures var q := Apply(p, SetImageCaption(id, caption), field);
      q.(images := p.images) == p && |q.images| == |p.images| &&
      (forall k :: 0 <= k < |p.images| ==>
         (p.images[k].id == id ==> q.images[k] == p.images[k].(caption := caption)) &&
         (p.images[k].id != id ==> q.images[k] == p.images[k]))
  {
    var r := Lists.MapById(p.images, ImageId, id, (i: Image) => i.(caption := caption));
    assert Apply(p, SetImageCaption(id, caption), field) == p.(images := r);
  }

  /** Deleting an image keeps exactly the images with another id and sets the storage left. */
  lemma ImageDeleted(p: ClientProject, id: string, storage: int, field: TagField)
    ensures var q := Apply(p, DeleteImage(id, storage), field);
      q.(images := p.images, storageRemaining := p.storageRemaining) == p &&
      q.storageRemaining == Some(storage) &&
      (forall x :: x in q.images <==> x in p.images && x.id != id)
  {
    var r := Lists.RemoveById(p.images, ImageId, id);
    assert Apply(p, DeleteImage(id, storage), field) == p.(images := r, storageRemaining := Some(storage));
    forall x ensures x in r <==> x in p.images && x.id != id {
      Lists.RemoveByIdMembers(p.images, ImageId, id, x);
      assert ImageId(x) == x.id;
    }
  }

  /** An image added and then deleted leaves the image list as it was when its id was new. */
  lemma ImageRoundTrip(p: ClientProject, image: Image, storage: int, later: int, field: TagField)
    requires forall k :: 0 <= k < |p.images| ==> p.images[k].id != image.id
    ensures Apply(Apply(p, AddImage(image, storage), field), DeleteImage(image.id, later), field) ==
            p.(storageRemaining := Some(later))
  {
    var added := Apply(p, AddImage(image, storage), field);
    assert added == p.(images := p.images + [image], storageRemaining := Some(storage));
    var back := Apply(added, DeleteImage(image.id, later), field);
    assert back == added.(images := Lists.RemoveById(added.images, ImageId, image.id), storageRemaining := Some(later));
    Lists.AppendThenRemove(p.images, image, ImageId);
    assert back.images == p.images;
  }

  // ---------------------------------------------------------------- tags

  /**
   * The owner's page appends a tag to `skillTags` and the contributor's page
   * to `skill_tags`; each leaves the other list, and everything else, as it
   * was.
   */
  lemma TagAdded(p: ClientProject, t: SkillTag)
    ensures Apply(p, AddSkillTag(t), OwnerTags) == p.(skillTags := p.skillTags + [t])
    ensures Apply(p, AddSkillTag(t), ContributorTags) == p.(skill_tags := p.skill_tags + [t])
  {
  }

  /** The owner's page removes from `skillTags` only, keeping exactly the tags with another id. */
  lemma OwnerTagRemoved(p: ClientProject, id: string)
    ensures var q := Apply(p, RemoveSkillTag(id), OwnerTags);
      q.(skillTags := p.skillTags) == p && (forall x :: x in q.skillTags <==> x in p.skillTags && x.id != id)
  {
    var r := Lists.RemoveById(p.skillTags, TagId, id);
    assert Apply(p, RemoveSkillTag(id), OwnerTags) == p.(skillTags := r);
    forall x ensures x in r <==> x in p.skillTags && x.id != id {
      Lists.RemoveByIdMembers(p.skillTags, TagId, id, x);
      assert TagId(x) == x.id;
    }
  }

  /** The contributor's page removes from `skill_tags` only, keeping exactly the tags with another id. */
  lemma ContributorTagRemoved(p: ClientProject, id: string)
    ensures var q := Apply(p, RemoveSkillTag(id), ContributorTags);
      q.(skill_tags := p.skill_tags) == p && (forall x :: x in q.skill_tags <==> x in p.skill_tags && x.id != id)
  {
    var r := Lists.RemoveById(p.skill_tags, TagId, id);
    assert Apply(p, RemoveSkillTag(id), ContributorTags) == p.(skill_tags := r);
    forall x ensures x in r <==> x in p.skill_tags && x.id != id {
      Lists.RemoveByIdMembers(p.skill_tags, TagId, id, x);
      assert TagId(x) == x.id;
    }
  }

  /** A tag assigned and then unassigned leaves the project as it was, when the project did not carry it. */
  lemma TagRoundTrip(p: ClientProject, t: SkillTag, field: TagField)
    requires forall k :: 0 <= k < |p.skillTags| ==> p.skillTags[k].id != t.id
    requires forall k :: 0 <= k < |p.skill_tags| ==> p.skill_tags[k].id != t.id
    ensures Apply(Apply(p, AddSkillTag(t), field), RemoveSkillTag(t.id), field) == p
  {
    if field == OwnerTags {
      var added := p.(skillTags := p.skillTags + [t]);
      assert Apply(p, AddSkillTag(t), field) == added;
      var removed := Lists.RemoveById(added.skillTags, TagId, t.id);
      assert Apply(added, RemoveSkillTag(t.id), field) == added.(skillTags := removed);
      Lists.AppendThenRemove(p.skillTags, t, TagId);
    } else {
      var added := p.(skill_tags := p.skill_tags + [t]);
      assert Apply(p, AddSkillTag(t), field) == added;
      var removed := Lists.RemoveById(added.skill_tags, TagId, t.id);
      assert Apply(added, RemoveSkillTag(t.id), field) == added.(skill_tags := removed);
      Lists.AppendThenRemove(p.skill_tags, t, TagId);
    }
  }

  /**
   * Unassigning a tag the contributor's page carries once and assigning it
   * again gives a reordering of the same tags.
   */
  lemma TagReassign(p: ClientProject, i: nat)
    requires i < |p.skill_tags|
    requires forall k :: 0 <= k < |p.skill_tags| && k != i ==> p.skill_tags[k].id != p.skill_tags[i].id
    ensures var x := p.skill_tags[i];
      var back := Apply(Apply(p, RemoveSkillTag(x.id), ContributorTags), AddSkillTag(x), ContributorTags);
      multiset(back.skill_tags) == multiset(p.skill_tags)
  {
    var x := p.skill_tags[i];
    var r := Lists.RemoveById(p.skill_tags, TagId, x.id);
    var removed := p.(skill_tags := r);
    assert Apply(p, RemoveSkillTag(x.id), ContributorTags) == removed;
    assert Apply(removed, AddSkillTag(x), ContributorTags).skill_tags == r + [x];
    Lists.RemoveThenAppend(p.skill_tags, i, TagId);
  }

  // ---------------------------------------------------------------- links and questions

  /** Adding a link appends it, and nothing else changes. */
  lemma LinkAdded(p: ClientProject, l: Link, field: TagField)
    ensures Apply(p, AddLink(l), field) == p.(links := p.links + [l])
  {
  }

  /** Changing a link puts it wherever the id matched and leaves the other links in place; nothing else changes. */
  lemma LinkChanged(p: ClientProject, l: Link, field: TagField)
    ensures var q := Apply(p, ChangeLink(l), field);
      q.(links := p.links) == p && |q.links| == |p.links| &&
      (forall k :: 0 <= k < |p.links| ==> q.links[k] == if p.links[k].id == l.id then l else p.links[k])
  {
    var r := Lists.MapById(p.links, LinkId, l.id, (_: Link) => l);
    assert Apply(p, ChangeLink(l), field) == p.(links := r);
  }

  /** Deleting a link keeps exactly the links with another id; nothing else changes. */
  lemma LinkDeleted(p: ClientProject, id: string, field: TagField)
    ensures var q := Apply(p, DeleteLink(id), field);
      q.(links := p.links) == p && (forall x :: x in q.links <==> x in p.links && x.id != id)
  {
    var r := Lists.RemoveById(p.links, LinkId, id);
    assert Apply(p, DeleteLink(id), field) == p.(links := r);
    forall x ensures x in r <==> x in p.links && x.id != id {
      Lists.RemoveByIdMembers(p.links, LinkId, id, x);
      assert LinkId(x) == x.id;
    }
  }

  /** Adding a question appends it, and nothing else changes. */
  lemma QuestionAdded(p: ClientProject, question: Question, field: TagField)
    ensures Apply(p, AddQuestion(question), field) == p.(questions := p.questions + [question])
  {
  }

  /**
   * Changing a question puts it wherever the id matched and leaves the other
   * questions in place; nothing else changes.
   */
  lemma QuestionChanged(p: ClientProject, question: Question, field: TagField)
    ensures var q := Apply(p, ChangeQuestion(question), field);
      q.(questions := p.questions) == p && |q.questions| == |p.questions| &&
      (forall k :: 0 <= k < |p.questions| ==>
         q.questions[k] == if p.questions[k].id == question.id then question else p.questions[k])
  {
    var r := Lists.MapById(p.questions, QuestionId, question.id, (_: Question) => question);
    assert Apply(p, ChangeQuestion(question), field) == p.(questions := r);
  }

  /** Deleting a question keeps exactly the questions with another id; nothing else changes. */
  lemma QuestionDeleted(p: ClientProject, id: string, field: TagField)
    ensures var q := Apply(p, DeleteQuestion(id), field);
      q.(questions := p.questions) == p && (forall x :: x in q.questions <==> x in p.questions && x.id != id)
  {
    var r := Lists.RemoveById(p.questions, QuestionId, id);
    assert Apply(p, DeleteQuestion(id), field) == p.(questions := r);
    forall x ensures x in r <==> x in p.questions && x.id != id {
      Lists.RemoveByIdMembers(p.questions, QuestionId, id, x);
      assert QuestionId(x) == x.id;
    }
  }

  /** A link added and then deleted leaves the project as it was when its id was new. */
  lemma LinkRoundTrip(p: ClientProject, l: Link, field: TagField)
    requires forall k :: 0 <= k < |p.links| ==> p.links[k].id != l.id
    ensures Apply(Apply(p, AddLink(l), field), DeleteLink(l.id), field) == p
  {
    var added := p.(links := p.links + [l]);
    assert Apply(p, AddLink(l), field) == added;
    var removed := Lists.RemoveById(added.links, LinkId, l.id);
    assert Apply(added, DeleteLink(l.id), field) == added.(links := removed);
    Lists.AppendThenRemove(p.links, l, LinkId);
  }

  /** A question added and then deleted leaves the project as it was when its id was new. */
  lemma QuestionRoundTrip(p: ClientProject, question: Question, field: TagField)
    requires forall k :: 0 <= k < |p.questions| ==> p.questions[k].id != question.id
    ensures Apply(Apply(p, AddQuestion(question), field), DeleteQuestion(question.id), field) == p
  {
    var added := p.(questions := p.questions + [question]);
    assert Apply(p, AddQuestion(question), field) == added;
    var removed := Lists.RemoveById(added.questions, QuestionId, question.id);
    assert Apply(added, DeleteQuestion(question.id), field) == added.(questions := removed);
    Lists.AppendThenRemove(p.questions, question, QuestionId);
  }

  /** Visibility, group and description edits set that one field. */
  lemma FieldEdits(p: ClientProject, v: Visibility, g: Option<Group>, d: string, field: TagField)
    ensures Apply(p, SetVisibility(v), field) == p.(visibility := v)
    ensures Apply(p, SetGroup(g), field) == p.(group := g)
    ensures Apply(p, SetDescription(d), field) == p.(description := d)
  {
  }
}
