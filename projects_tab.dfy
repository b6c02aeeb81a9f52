/**
 * The projects tab of the dashboard: the form that adds or edits a project,
 * the image list it builds, and the local copy of the project list that it
 * keeps in step with what it writes to storage.
 */
module ProjectsDashboard {
  import opened Wrappers
  import opened Storage
  import Seqs

  /** The guard of `handleSubmit`: title, description, date and cover image are all required. */
  predicate MissingProjectFields(title: string, description: string, date: string, coverImage: string)
  {
    title == "" || description == "" || date == "" || coverImage == ""
  }

  /** The images saved with a project: the chosen ones, or the cover image alone when none were chosen. */
  function FinalImages(images: seq<string>, coverImage: string): (r: seq<string>)
    ensures |r| >= 1
    ensures |images| > 0 ==> r == images
    ensures |images| == 0 ==> r == [coverImage]
  {
    if |images| > 0 then images else [coverImage]
  }

  predicate NoDuplicates(s: seq<string>)
  {
    forall i, j :: 0 <= i < j < |s| ==> s[i] != s[j]
  }

  /** `handleAddImage`: appends a non-empty URL that the list does not hold yet. */
  function AddImage(images: seq<string>, url: string): (r: seq<string>)
    ensures url != "" && url !in images ==> r == images + [url]
    ensures url == "" || url in images ==> r == images
    ensures NoDuplicates(images) ==> NoDuplicates(r)
    ensures forall u :: u in r <==> u in images || (u == url && url != "")
  {
    if url != "" && url !in images then images + [url] else images
  }

  /** `handleRemoveImage`: the element at `index` goes, the others keep their order. */
  function RemoveImageAt(images: seq<string>, index: int): (r: seq<string>)
    ensures 0 <= index < |images| ==>
      |r| == |images| - 1
      && (forall j :: 0 <= j < index ==> r[j] == images[j])
      && (forall j :: index <= j < |r| ==> r[j] == images[j + 1])
    ensures !(0 <= index < |images|) ==> r == images
  {
    if 0 <= index < |images| then images[..index] + images[index + 1..] else images
  }

  /** The list half of `handleSetCoverImage`: the cover seeds an empty list and leaves a non-empty one alone. */
  function SeedImages(images: seq<string>, url: string): (r: seq<string>)
    ensures |images| == 0 ==> r == [url]
    ensures |images| > 0 ==> r == images
    ensures |r| >= 1
  {
    if |images| == 0 then [url] else images
  }

  /** The edit the local list applies to the project being edited. */
  function LocalEdit(title: string, description: string, date: string, coverImage: string,
                     images: seq<string>, now: int): Project -> Project
  {
    (p: Project) => p.(title := title, description := description, date := date,
            coverImage := coverImage, images := images, updatedAt := now)
  }

  /** The updates `handleSubmit` sends to `updateProject`: every form field. */
  function FormUpdates(title: string, description: string, date: string, coverImage: string,
                       images: seq<string>): ProjectUpdates
  {
    ProjectUpdates(Some(title), Some(description), Some(date), Some(coverImage), Some(images))
  }

  /**
   * When project ids are distinct and the clock reads the same for both, the
   * local list after an edit equals the stored list after `updateProject`.
   */
  lemma LocalEditMatchesStorage(d: UserData, id: string, title: string, description: string,
                                date: string, coverImage: string, images: seq<string>, now: int)
    requires Seqs.DistinctIds(d.projects, ProjectId) && Seqs.HasId(d.projects, ProjectId, id)
    ensures ReplaceProject(d, id, FormUpdates(title, description, date, coverImage, images), now).Success?
    ensures ReplaceProject(d, id, FormUpdates(title, description, date, coverImage, images), now).value.0.projects
         == Seqs.MapId(d.projects, ProjectId, id, LocalEdit(title, description, date, coverImage, images, now))
  {
    var u := FormUpdates(title, description, date, coverImage, images);
    var edit := LocalEdit(title, description, date, coverImage, images, now);
    var found := Seqs.FindIndex(d.projects, ProjectId, id);
    assert found.Some?;
    var k := found.value;
    var stored := d.projects[k := MergeProject(d.projects[k], u, now)];
    assert ReplaceProject(d, id, u, now).value.0.projects == stored;
    var local := Seqs.MapId(d.projects, ProjectId, id, edit);
    forall i | 0 <= i < |d.projects| ensures stored[i] == local[i] {
      if i == k {
        assert local[i] == edit(d.projects[k]);
      } else {
        assert ProjectId(d.projects[i]) != ProjectId(d.projects[k]);
      }
    }
  }

  class ProjectsTab {
    var projects: seq<Project>
    var isDialogOpen: bool
    var isDeleteDialogOpen: bool
    var editMode: bool
    var currentProject: Option<Project>
    var projectToDelete: Option<string>
    var title: string
    var description: string
    var date: string
    var coverImage: string
    var projectImages: seq<string>
    const storage: StorageService

    constructor (storage: StorageService)
      ensures this.storage == storage && projects == [] && !isDialogOpen && !isDeleteDialogOpen
      ensures !editMode && currentProject == None && projectToDelete == None
      ensures title == "" && description == "" && date == "" && coverImage == "" && projectImages == []
    {
      this.storage := storage;
      projects := [];
      isDialogOpen, isDeleteDialogOpen, editMode := false, false, false;
      currentProject, projectToDelete := None, None;
      title, description, date, coverImage := "", "", "", "";
      projectImages := [];
    }

    /** True when the form is back to its empty, non-editing state. */
    predicate FormIsReset()
      reads this
    {
      title == "" && description == "" && date == "" && coverImage == ""
      && projectImages == [] && currentProject == None && !editMode
    }

    /** The effect on the context document: the local list becomes its projects. */
    method Load(userData: Option<UserData>)
      modifies this`projects
      ensures userData.Some? ==> projects == userData.value.projects
      ensures userData.None? ==> projects == old(projects)
    {
      if userData.Some? {
        projects := userData.value.projects;
      }
    }

    /** `resetForm`. */
    method ResetForm()
      modifies this`title, this`description, this`date, this`coverImage, this`projectImages,
               this`currentProject, this`editMode
      ensures FormIsReset()
    {
      title, description, date, coverImage := "", "", "", "";
      projectImages := [];
      currentProject := None;
      editMode := false;
    }

    /** The "Add Project" button: an empty form in a newly opened dialog. */
    method OpenNewProject()
      modifies this`title, this`description, this`date, this`coverImage, this`projectImages,
               this`currentProject, this`editMode, this`isDialogOpen
      ensures FormIsReset() && isDialogOpen
    {
      ResetForm();
      isDialogOpen := true;
    }

    /** `handleEditProject`: the form is loaded from the project, in edit mode. */
    method EditProject(p: Project)
      modifies this`title, this`description, this`date, this`coverImage, this`projectImages,
               this`currentProject, this`editMode, this`isDialogOpen
      ensures currentProject == Some(p) && editMode && isDialogOpen
      ensures title == p.title && description == p.description && date == p.date
      ensures coverImage == p.coverImage && projectImages == p.images
    {
      currentProject := Some(p);
      title, description, date, coverImage := p.title, p.description, p.date, p.coverImage;
      projectImages := p.images;
      editMode := true;
      isDialogOpen := true;
    }

    /** `handleDeleteConfirm`. */
    method ConfirmDelete(id: string)
      modifies this`projectToDelete, this`isDeleteDialogOpen
      ensures projectToDelete == Some(id) && isDeleteDialogOpen
    {
      projectToDelete := Some(id);
      isDeleteDialogOpen := true;
    }

    /**
     * `handleDeleteProject`: an empty or missing id does nothing; otherwise the
     * project is deleted from storage and, if that did not throw, filtered out
     * of the local list. The dialog closes either way.
     */
    method DeleteProject()
      modifies this`projects, this`isDeleteDialogOpen, this`projectToDelete, storage
      ensures old(projectToDelete).None? || old(projectToDelete).value == "" ==>
        projects == old(projects) && isDeleteDialogOpen == old(isDeleteDialogOpen)
        && projectToDelete == old(projectToDelete) && storage.slot == old(storage.slot)
      ensures old(projectToDelete).Some? && old(projectToDelete).value != "" ==>
        var id := old(projectToDelete).value;
        var (r, slot') := DeleteProjectOn(old(storage.slot), id);
        storage.slot == slot'
        && projects == (if r.Success? then Seqs.RemoveId(old(projects), ProjectId, id) else old(projects))
        && !isDeleteDialogOpen && projectToDelete == None
    {
      if projectToDelete.None? || projectToDelete.value == "" {
        return;
      }
      var id := projectToDelete.value;
      var r := storage.DeleteProject(id);
      if r.Success? {
        projects := Seqs.RemoveId(projects, ProjectId, id);
      }
      isDeleteDialogOpen := false;
      projectToDelete := None;
    }

    /**
     * `handleSubmit`. A missing field changes nothing. Otherwise, in edit mode
     * the project is updated in storage (at `storeNow`) and in the local list
     * (at `localNow`), else a new project with id `newId` is saved and
     * prepended locally; on success the dialog closes and the form resets, and
     * on a thrown error the tab is left as it was.
     */
    method Submit(newId: string, storeNow: int, localNow: int)
      modifies this, storage
      ensures MissingProjectFields(old(title), old(description), old(date), old(coverImage)) ==>
        unchanged(this) && storage.slot == old(storage.slot)
      ensures !MissingProjectFields(old(title), old(description), old(date), old(coverImage)) ==>
        var images := FinalImages(old(projectImages), old(coverImage));
        if old(editMode) && old(currentProject).Some? then
          var id := old(currentProject).value.id;
          var (r, slot') := UpdateProjectOn(old(storage.slot), id,
            FormUpdates(old(title), old(description), old(date), old(coverImage), images), storeNow);
          storage.slot == slot'
          && (r.Success? ==>
                projects == Seqs.MapId(old(projects), ProjectId, id,
                  LocalEdit(old(title), old(description), old(date), old(coverImage), images, localNow))
                && !isDialogOpen && FormIsReset())
          && (r.Failure? ==> unchanged(this))
        else
          var (r, slot') := SaveProjectOn(old(storage.slot),
            ProjectInput(old(title), old(description), old(date), old(coverImage), images), newId, storeNow);
          storage.slot == slot'
          && (r.Success? ==> projects == [r.value] + old(projects) && !isDialogOpen && FormIsReset())
          && (r.Failure? ==> unchanged(this))
      ensures isDeleteDialogOpen == old(isDeleteDialogOpen) && projectToDelete == old(projectToDelete)
    {
      if MissingProjectFields(title, description, date, coverImage) {
        return;
      }
      var images := FinalImages(projectImages, coverImage);
      if editMode && currentProject.Some? {
        SubmitEdit(currentProject.value.id, images, storeNow, localNow);
      } else {
        SubmitNew(newId, images, storeNow);
      }
    }

    /** The edit branch of `handleSubmit`, for the project `id` with the final image list. */
    method SubmitEdit(id: string, images: seq<string>, storeNow: int, localNow: int)
      modifies this, storage
      ensures
        var (r, slot') := UpdateProjectOn(old(storage.slot), id,
          FormUpdates(old(title), old(description), old(date), old(coverImage), images), storeNow);
        storage.slot == slot'
        && (r.Success? ==>
              projects == Seqs.MapId(old(projects), ProjectId, id,
                LocalEdit(old(title), old(description), old(date), old(coverImage), images, localNow))
              && !isDialogOpen && FormIsReset())
        && (r.Failure? ==> unchanged(this))
      ensures isDeleteDialogOpen == old(isDeleteDialogOpen) && projectToDelete == old(projectToDelete)
    {
      var edit := LocalEdit(title, description, date, coverImage, images, localNow);
      var r := storage.UpdateProject(id, FormUpdates(title, description, date, coverImage, images), storeNow);
      if r.Failure? {
        return;
      }
      projects := Seqs.MapId(projects, ProjectId, id, edit);
      isDialogOpen := false;
      ResetForm();
    }

    /** The add branch of `handleSubmit`, with `newId` from `generateId` and the final image list. */
    method SubmitNew(newId: string, images: seq<string>, storeNow: int)
      modifies this, storage
      ensures
        var (r, slot') := SaveProjectOn(old(storage.slot),
          ProjectInput(old(title), old(description), old(date), old(coverImage), images), newId, storeNow);
        storage.slot == slot'
        && (r.Success? ==> projects == [r.value] + old(projects) && !isDialogOpen && FormIsReset())
        && (r.Failure? ==> unchanged(this))
      ensures isDeleteDialogOpen == old(isDeleteDialogOpen) && projectToDelete == old(projectToDelete)
    {
      var r := storage.SaveProject(ProjectInput(title, description, date, coverImage, images), newId, storeNow);
      if r.Failure? {
        return;
      }
      projects := [r.value] + projects;
      isDialogOpen := false;
      ResetForm();
    }

    /** `handleAddImage`. */
    method AddProjectImage(url: string)
      modifies this`projectImages
      ensures projectImages == AddImage(old(projectImages), url)
    {
      if url != "" && url !in projectImages {
        projectImages := projectImages + [url];
      }
    }

    /** `handleRemoveImage`. */
    method RemoveProjectImage(index: int)
      modifies this`projectImages
      ensures projectImages == RemoveImageAt(old(projectImages), index)
    {
      projectImages := RemoveImageAt(projectImages, index);
    }

    /** `handleSetCoverImage`: the cover is set, and seeds the image list only when it is empty. */
    method SetCoverImage(url: string)
      modifies this`coverImage, this`projectImages
      ensures coverImage == url && projectImages == SeedImages(old(projectImages), url)
    {
      coverImage := url;
      if |projectImages| == 0 {
        projectImages := [url];
      }
    }
  }
}
