/**
 * The browser-storage repository of the client (class `ProjectAPI`).
 *
 * Local storage is a map from key names to the records stored under them;
 * each collection key holds a whole array, which every operation reads,
 * changes and writes back. The JSON text in between is not modelled.
 */
module LocalStore {
  import opened Wrappers
  import opened Lists
  import opened Domain

  datatype Project = Project(id: string, name: string, description: string)

  datatype Story = Story(
    id: string,
    name: string,
    description: string,
    priority: Priority,
    projectId: string,
    createdAt: string,
    status: Status,
    ownerId: Option<string>)

  datatype User = User(
    id: string,
    login: string,
    firstName: string,
    lastName: string,
    password: string,
    role: Role)

  /** The storage keys the repository uses. */
  datatype Key = ProjectsKey | StoriesKey | UsersKey | CurrentUserKey | CurrentProjectIdKey

  /** What may be stored under a key: an array, one user, or raw text. */
  datatype Entry =
    | ProjectList(projects: seq<Project>)
    | StoryList(stories: seq<Story>)
    | UserList(users: seq<User>)
    | UserItem(user: User)
    | Text(text: string)

  /** Each key holds the shape the repository writes under it. */
  predicate Fits(k: Key, e: Entry) {
    match k
    case ProjectsKey => e.ProjectList?
    case StoriesKey => e.StoryList?
    case UsersKey => e.UserList?
    case CurrentUserKey => e.UserItem?
    case CurrentProjectIdKey => e.Text?
  }

  predicate WellFormed(storage: map<Key, Entry>) {
    forall k :: k in storage ==> Fits(k, storage[k])
  }

  /** `project._id === id`, as a value that two calls with the same id produce identically. */
  function HasId(id: string): Project -> bool {
    (p: Project) => p.id == id
  }

  /** `project._id !== id`, the predicate `deleteProject` filters by. */
  function NotId(id: string): Project -> bool {
    (p: Project) => p.id != id
  }

  function StoryHasId(id: string): Story -> bool {
    (s: Story) => s.id == id
  }

  function StoryNotId(id: string): Story -> bool {
    (s: Story) => s.id != id
  }

  /** `story.projectId === projectId`. */
  function InProject(projectId: string): Story -> bool {
    (s: Story) => s.projectId == projectId
  }

  /** `u.login === username && u.password === password`. */
  function Credentials(username: string, password: string): User -> bool {
    (u: User) => u.login == username && u.password == password
  }

  /** An array with an element whose id is `id` gives it up to a filter on `NotId(id)`. */
  lemma NoProjectAfterDelete(s: seq<Project>, id: string)
    ensures Find(Filter(s, NotId(id)), HasId(id)) == None
  {
    var r := Filter(s, NotId(id));
    forall x | x in r ensures !HasId(id)(x) {
      var i :| 0 <= i < |r| && r[i] == x;
      assert NotId(id)(r[i]);
    }
  }

  lemma NoStoryAfterDelete(s: seq<Story>, id: string)
    ensures Find(Filter(s, StoryNotId(id)), StoryHasId(id)) == None
  {
    var r := Filter(s, StoryNotId(id));
    forall x | x in r ensures !StoryHasId(id)(x) {
      var i :| 0 <= i < |r| && r[i] == x;
      assert StoryNotId(id)(r[i]);
    }
  }

  class ProjectApi {
    /** The static field `currentProjectId` (`null` is `None`). */
    var currentProjectId: Option<string>
    /** The browser's local storage, restricted to the repository's keys. */
    var storage: map<Key, Entry>

    ghost predicate Valid()
      reads this
    {
      WellFormed(storage)
    }

    /** A page load: storage persists, the static field starts out `null`. */
    constructor (persisted: map<Key, Entry>)
      requires WellFormed(persisted)
      ensures Valid() && storage == persisted && currentProjectId == None
      ensures GetCurrentProject() ==
                if CurrentProjectIdKey in persisted && persisted[CurrentProjectIdKey].text != ""
                then GetProject(persisted[CurrentProjectIdKey].text)
                else None
    {
      storage := persisted;
      currentProjectId := None;
    }

    // ---------- projects ----------

    /** `getProjects`: the stored array, or the empty array when the key is absent. */
    function GetProjects(): (r: seq<Project>)
      reads this
      ensures ProjectsKey !in storage ==> r == []
      ensures Valid() && ProjectsKey in storage ==> r == storage[ProjectsKey].projects
    {
      if ProjectsKey in storage && storage[ProjectsKey].ProjectList?
      then storage[ProjectsKey].projects
      else []
    }

    /** `getProject`: the first stored project with the id, or `null`. */
    function GetProject(id: string): (r: Option<Project>)
      reads this
      ensures r.None? <==> forall p :: p in GetProjects() ==> p.id != id
      ensures r.Some? ==> exists i :: 0 <= i < |GetProjects()| && GetProjects()[i] == r.value &&
                                      r.value.id == id &&
                                      forall j :: 0 <= j < i ==> GetProjects()[j].id != id
    {
      var r := Find(GetProjects(), HasId(id));
      assert r.None? <==> forall p :: p in GetProjects() ==> !HasId(id)(p);
      r
    }

    /** `createProject`: append and write back. */
    method CreateProject(project: Project)
      requires Valid()
      modifies this
      ensures Valid()
      ensures storage == old(storage)[ProjectsKey := ProjectList(old(GetProjects()) + [project])]
      ensures currentProjectId == old(currentProjectId)
      ensures GetProjects()[..|old(GetProjects())|] == old(GetProjects())
      ensures GetProject(project.id) ==
                if old(GetProject(project.id)).Some? then old(GetProject(project.id)) else Some(project)
    {
      var projects := GetProjects();
      FirstIndexAppend(projects, project, HasId(project.id));
      projects := projects + [project];
      storage := storage[ProjectsKey := ProjectList(projects)];
    }

    /** `updateProject`: replace the first project with the same id; write only on a match. */
    method UpdateProject(updated: Project)
      requires Valid()
      modifies this
      ensures Valid()
      ensures match FirstIndex(old(GetProjects()), HasId(updated.id))
              case None => storage == old(storage)
              case Some(i) =>
                storage == old(storage)[ProjectsKey := ProjectList(old(GetProjects())[i := updated])]
      ensures currentProjectId == old(currentProjectId)
      ensures |GetProjects()| == |old(GetProjects())|
      ensures old(GetProject(updated.id)).Some? ==> GetProject(updated.id) == Some(updated)
    {
      var projects := GetProjects();
      var index := FirstIndex(projects, HasId(updated.id));
      if index.Some? {
        FirstIndexAfterReplace(projects, HasId(updated.id), index.value, updated);
        projects := projects[index.value := updated];
        storage := storage[ProjectsKey := ProjectList(projects)];
      }
    }

    /** `deleteProject`: keep every project with another id; always writes back. */
    method DeleteProject(id: string)
      requires Valid()
      modifies this
      ensures Valid()
      ensures storage == old(storage)[ProjectsKey := ProjectList(Filter(old(GetProjects()), NotId(id)))]
      ensures currentProjectId == old(currentProjectId)
      ensures IsSubsequence(GetProjects(), old(GetProjects()))
      ensures GetProject(id) == None
      ensures forall p :: p in old(GetProjects()) && p.id != id ==> p in GetProjects()
      // a second delete of the same id writes back what is already there
      ensures storage[ProjectsKey := ProjectList(Filter(GetProjects(), NotId(id)))] == storage
    {
      var projects := GetProjects();
      FilterIsSubsequence(projects, NotId(id));
      FilterIdempotent(projects, NotId(id));
      NoProjectAfterDelete(projects, id);
      var kept := Filter(projects, NotId(id));
      forall p | p in projects && p.id != id ensures p in kept {
        assert NotId(id)(p);
        assert multiset(kept)[p] == multiset(projects)[p];
      }
      storage := storage[ProjectsKey := ProjectList(kept)];
    }

    // ---------- current project ----------

    /** `setCurrentProject`: set the static field and the stored id. */
    method SetCurrentProject(id: string)
      requires Valid()
      modifies this
      ensures Valid()
      ensures currentProjectId == Some(id)
      ensures storage == old(storage)[CurrentProjectIdKey := Text(id)]
      ensures id != "" ==> GetCurrentProject() == GetProject(id) == old(GetProject(id))
      ensures id == "" ==> GetCurrentProject() == None
    {
      currentProjectId := Some(id);
      storage := storage[CurrentProjectIdKey := Text(id)];
    }

    /**
     * The id `getCurrentProject` looks up: the static field when it is truthy,
     * otherwise the stored id; "" stands for a falsy result.
     */
    function CurrentProjectIdInEffect(): string
      reads this
    {
      if currentProjectId.Some? && currentProjectId.value != "" then currentProjectId.value
      else if CurrentProjectIdKey in storage && storage[CurrentProjectIdKey].Text? then storage[CurrentProjectIdKey].text
      else ""
    }

    /** `getCurrentProject`. */
    function GetCurrentProject(): (r: Option<Project>)
      reads this
      ensures r.Some? ==> r.value in GetProjects() && r.value.id == CurrentProjectIdInEffect() != ""
      ensures CurrentProjectIdInEffect() != "" ==> r == GetProject(CurrentProjectIdInEffect())
    {
      var id := CurrentProjectIdInEffect();
      if id != "" then GetProject(id) else None
    }

    // ---------- stories ----------

    /** `getStories`. */
    function GetStories(): (r: seq<Story>)
      reads this
      ensures StoriesKey !in storage ==> r == []
      ensures Valid() && StoriesKey in storage ==> r == storage[StoriesKey].stories
    {
      if StoriesKey in storage && storage[StoriesKey].StoryList?
      then storage[StoriesKey].stories
      else []
    }

    /** `getStoriesByProjectId`: exactly the stories of the project, in stored order. */
    function GetStoriesByProjectId(projectId: string): (r: seq<Story>)
      reads this
      ensures forall i :: 0 <= i < |r| ==> r[i].projectId == projectId
      ensures forall s :: multiset(r)[s] == if s.projectId == projectId then multiset(GetStories())[s] else 0
      ensures IsSubsequence(r, GetStories())
    {
      var r := Filter(GetStories(), InProject(projectId));
      FilterIsSubsequence(GetStories(), InProject(projectId));
      assert forall i :: 0 <= i < |r| ==> InProject(projectId)(r[i]);
      assert forall s :: InProject(projectId)(s) == (s.projectId == projectId);
      r
    }

    /** The first story with the id, as `updateStory` and `deleteStory` see it. */
    function GetStory(id: string): (r: Option<Story>)
      reads this
      ensures r.None? <==> forall s :: s in GetStories() ==> s.id != id
      ensures r.Some? ==> r.value in GetStories() && r.value.id == id
    {
      var r := Find(GetStories(), StoryHasId(id));
      assert r.None? <==> forall s :: s in GetStories() ==> !StoryHasId(id)(s);
      assert r.Some? ==> StoryHasId(id)(r.value);
      r
    }

    /** `createStory`: append and write back. */
    method CreateStory(story: Story)
      requires Valid()
      modifies this
      ensures Valid()
      ensures storage == old(storage)[StoriesKey := StoryList(old(GetStories()) + [story])]
      ensures currentProjectId == old(currentProjectId)
      ensures GetStories()[..|old(GetStories())|] == old(GetStories())
    {
      var stories := GetStories();
      stories := stories + [story];
      storage := storage[StoriesKey := StoryList(stories)];
    }

    /** `updateStory`: replace the first story with the same id; write only on a match. */
    method UpdateStory(updated: Story)
      requires Valid()
      modifies this
      ensures Valid()
      ensures match FirstIndex(old(GetStories()), StoryHasId(updated.id))
              case None => storage == old(storage)
              case Some(i) =>
                storage == old(storage)[StoriesKey := StoryList(old(GetStories())[i := updated])]
      ensures currentProjectId == old(currentProjectId)
      ensures |GetStories()| == |old(GetStories())|
      ensures old(GetStory(updated.id)).Some? ==> GetStory(updated.id) == Some(updated)
    {
      var stories := GetStories();
      var index := FirstIndex(stories, StoryHasId(updated.id));
      if index.Some? {
        FirstIndexAfterReplace(stories, StoryHasId(updated.id), index.value, updated);
        stories := stories[index.value := updated];
        storage := storage[StoriesKey := StoryList(stories)];
      }
    }

    /** `deleteStory`: keep every story with another id; always writes back. */
    method DeleteStory(id: string)
      requires Valid()
      modifies this
      ensures Valid()
      ensures storage == old(storage)[StoriesKey := StoryList(Filter(old(GetStories()), StoryNotId(id)))]
      ensures currentProjectId == old(currentProjectId)
      ensures IsSubsequence(GetStories(), old(GetStories()))
      ensures GetStory(id) == None
      ensures storage[StoriesKey := StoryList(Filter(GetStories(), StoryNotId(id)))] == storage
    {
      var stories := GetStories();
      FilterIsSubsequence(stories, StoryNotId(id));
      FilterIdempotent(stories, StoryNotId(id));
      NoStoryAfterDelete(stories, id);
      var kept := Filter(stories, StoryNotId(id));
      storage := storage[StoriesKey := StoryList(kept)];
      assert Valid();
      assert GetStories() == kept;
      assert GetStory(id) == Find(kept, StoryHasId(id));
    }

    // ---------- users ----------

    /** `getUsers`: unlike the other collections, an absent key reads as `null`. */
    function GetUsers(): (r: Option<seq<User>>)
      reads this
      ensures Valid() ==> (r.None? <==> UsersKey !in storage)
      ensures Valid() && UsersKey in storage ==> r == Some(storage[UsersKey].users)
    {
      if UsersKey in storage && storage[UsersKey].UserList? then Some(storage[UsersKey].users) else None
    }

    /** The array `register` and `login` parse: `getItem("users") || "[]"`. */
    function StoredUsers(): seq<User>
      reads this
    {
      GetUsers().GetOr([])
    }

    /** `getCurrentUser`. */
    function GetCurrentUser(): (r: Option<User>)
      reads this
      ensures Valid() ==> (r.None? <==> CurrentUserKey !in storage)
      ensures Valid() && CurrentUserKey in storage ==> r == Some(storage[CurrentUserKey].user)
    {
      if CurrentUserKey in storage && storage[CurrentUserKey].UserItem? then Some(storage[CurrentUserKey].user) else None
    }

    /** `register`: append without any duplicate-login check. */
    method Register(user: User)
      requires Valid()
      modifies this
      ensures Valid()
      ensures storage == old(storage)[UsersKey := UserList(old(StoredUsers()) + [user])]
      ensures currentProjectId == old(currentProjectId)
      ensures GetUsers() == Some(old(StoredUsers()) + [user])
    {
      var users := StoredUsers();
      users := users + [user];
      storage := storage[UsersKey := UserList(users)];
    }

    /**
     * `login`: the first user whose login and password both match becomes the
     * current user; `found` is false where the source raises its alert.
     */
    method Login(username: string, password: string) returns (found: bool)
      requires Valid()
      modifies this
      ensures Valid()
      ensures found <==> exists u :: u in old(StoredUsers()) && u.login == username && u.password == password
      ensures !found ==> storage == old(storage)
      ensures found ==> GetCurrentUser().Some? && storage == old(storage)[CurrentUserKey := UserItem(GetCurrentUser().value)]
      ensures found ==> exists i :: 0 <= i < |old(StoredUsers())| &&
                                    GetCurrentUser() == Some(old(StoredUsers())[i]) &&
                                    old(StoredUsers())[i].login == username &&
                                    old(StoredUsers())[i].password == password &&
                                    forall j :: 0 <= j < i ==> !(old(StoredUsers())[j].login == username &&
                                                                 old(StoredUsers())[j].password == password)
      ensures currentProjectId == old(currentProjectId)
    {
      var users := StoredUsers();
      var user := Find(users, Credentials(username, password));
      assert user.None? <==> forall u :: u in users ==> !Credentials(username, password)(u);
      if user.Some? {
        storage := storage[CurrentUserKey := UserItem(user.value)];
        found := true;
      } else {
        found := false;
      }
    }

    /** `logout`: remove the current user and nothing else. */
    method Logout()
      requires Valid()
      modifies this
      ensures Valid()
      ensures storage == old(storage) - {CurrentUserKey}
      ensures currentProjectId == old(currentProjectId)
      ensures GetCurrentUser() == None
    {
      storage := storage - {CurrentUserKey};
    }
  }
}
