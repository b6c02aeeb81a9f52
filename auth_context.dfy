/**
 * The session held by the authentication context: the current document in
 * component state, loaded from storage on mount, created or reused on login
 * and cleared on logout. An error the storage layer throws is caught and
 * leaves the state as it was (the toast it shows is not modelled).
 */
module Auth {
  import opened Wrappers
  import opened Storage

  class AuthProvider {
    /** The `userData` state. */
    var userData: Option<UserData>
    /** The `isLoading` state. */
    var isLoading: bool
    /** The storage service singleton. */
    const storage: StorageService

    constructor (storage: StorageService)
      ensures this.storage == storage && userData == None && isLoading
    {
      this.storage := storage;
      userData := None;
      isLoading := true;
    }

    /** `isAuthenticated: !!userData`. */
    function IsAuthenticated(): bool
      reads this
    {
      userData.Some?
    }

    /** The mount effect: adopt the stored document if there is one. */
    method Mount()
      modifies this
      ensures storage.slot.Stored? ==> userData == Some(storage.slot.data)
      ensures !storage.slot.Stored? ==> userData == old(userData)
      ensures !isLoading
    {
      var existing := storage.GetCurrentUser();
      if existing.Success? && existing.value.Some? {
        userData := existing.value;
      }
      isLoading := false;
    }

    /** `updateUserData`: state and storage both become `d`. */
    method UpdateUserData(d: UserData)
      modifies this, storage
      ensures userData == Some(d) && storage.slot == Stored(d)
      ensures isLoading == old(isLoading)
    {
      userData := Some(d);
      storage.SaveUserData(d);
    }

    /**
     * `login`: a stored document is reused as it is, whatever `username` and
     * `email` say; only an empty key makes a new document from the sample
     * content. `now` is the clock `createUser` reads.
     */
    method Login(username: string, email: string, now: int)
      modifies this, storage
      ensures old(storage.slot).Stored? ==>
        userData == Some(old(storage.slot).data) && storage.slot == old(storage.slot)
      ensures old(storage.slot) == Empty ==>
        var d := NewUserData(username, email, now, storage.sample);
        userData == Some(d) && storage.slot == Stored(d)
      ensures old(storage.slot) == Corrupt ==>
        userData == old(userData) && storage.slot == Corrupt
      ensures isLoading == old(isLoading)
    {
      var existing := storage.GetCurrentUser();
      if existing.Failure? {
        return;
      }
      if existing.value.Some? {
        userData := existing.value;
      } else {
        var created := storage.CreateUser(username, email, now);
        userData := Some(created);
      }
    }

    /** `logout`: the key is removed and the session ends. */
    method Logout()
      modifies this, storage
      ensures userData == None && !IsAuthenticated() && storage.slot == Empty
      ensures isLoading == old(isLoading)
    {
      storage.ClearUserData();
      userData := None;
    }
  }

  /**
   * A first login stores a document with the given name and email and the
   * two sample projects; adding a project puts it first, and deleting a
   * sample project by id leaves the new one and the other sample.
   */
  method FirstLoginScenario(loadedAt: int, now: int, newId: string)
      returns (created: UserData, afterDelete: seq<Project>, afterLogout: Result<Option<UserData>, StorageError>)
    requires newId != "sample-project-1" && newId != "sample-project-2"
    ensures created == NewUserData("Jane", "jane@x.com", now, SampleData(loadedAt))
    ensures |afterDelete| == 2 && afterDelete[0].id == newId && afterDelete[1] == created.projects[1]
    ensures afterLogout == Success(None)
  {
    var storage := new StorageService(Empty, loadedAt);
    var auth := new AuthProvider(storage);
    auth.Mount();
    assert !auth.IsAuthenticated();
    auth.Login("Jane", "jane@x.com", now);
    created := auth.userData.value;
    NewUserShape("Jane", "jane@x.com", now, loadedAt);

    var input := ProjectInput("New Work", "", "2024-01-01", "data:...", ["data:..."]);
    var added := storage.SaveProject(input, newId, now);
    assert added.Success?;
    var stored := storage.slot.data;
    assert |stored.projects| == 3 && stored.projects[0].id == newId;

    assert stored.projects == [stored.projects[0], stored.projects[1], stored.projects[2]];
    DeleteSampleScenario(storage, stored.projects[0], stored.projects[1], stored.projects[2]);
    afterDelete := storage.slot.data.projects;

    auth.Logout();
    afterLogout := storage.GetCurrentUser();
  }

  /**
   * Deleting the first sample project from a document whose projects are a
   * new project followed by the two samples keeps the other two, in order.
   */
  method DeleteSampleScenario(storage: StorageService, p0: Project, p1: Project, p2: Project)
    requires storage.slot.Stored? && storage.slot.data.projects == [p0, p1, p2]
    requires p0.id != "sample-project-1" && p1.id == "sample-project-1" && p2.id == "sample-project-2"
    modifies storage
    ensures storage.slot.Stored? && storage.slot.data.projects == [p0, p2]
  {
    var deleted := storage.DeleteProject("sample-project-1");
    assert deleted.Success?;
    assert [p0, p1, p2] == [p0] + ([p1] + [p2]);
    assert "sample-project-2"[15] != "sample-project-1"[15];
    Seqs.RemoveIdCons(p2, [], ProjectId, "sample-project-1");
    Seqs.RemoveIdCons(p1, [p2], ProjectId, "sample-project-1");
    Seqs.RemoveIdCons(p0, [p1] + [p2], ProjectId, "sample-project-1");
  }
}
