/**
 * The server's request handlers over its document store: registration and
 * Google sign-in (which write users), and list/get/create/update/delete for
 * projects, stories and tasks. Each handler returns its HTTP status code and,
 * where the source responds with one, the document.
 */
module Server {
  import opened Wrappers
  import opened Lists
  import opened Documents
  import opened Auth

  const Ok := 200
  const Created := 201
  const NoContent := 204
  const BadRequest := 400
  const NotFound := 404
  const InternalError := 500

  /** `{ login }` as the filter of `findOne`. */
  function SameLogin(login: string): UserRecord -> bool {
    (u: UserRecord) => u.login == login
  }

  class DocumentStore {
    /** The user collection, in insertion order (the order `findOne` scans). */
    var users: seq<UserRecord>
    var projects: map<Id, ProjectDoc>
    var stories: map<Id, StoryDoc>
    var tasks: map<Id, TaskDoc>
    /** Every id handed out so far is below `nextId`. */
    var nextId: Id

    ghost predicate Valid()
      reads this
    {
      && (forall i :: 0 <= i < |users| ==> users[i].id < nextId)
      && (forall id :: id in projects ==> id < nextId)
      && (forall id :: id in stories ==> id < nextId)
      && (forall id :: id in tasks ==> id < nextId)
    }

    constructor ()
      ensures Valid()
      ensures users == [] && projects == map[] && stories == map[] && tasks == map[]
    {
      users, projects, stories, tasks, nextId := [], map[], map[], map[], 0;
    }

    // ---------- users ----------

    /** `/register`: 400 when the login is taken, otherwise save the user (role defaulting) and 201. */
    method Register(login: string, password: string, firstName: string, lastName: string, role: Option<string>)
      returns (code: int)
      requires Valid()
      modifies this
      ensures Valid()
      ensures (exists u :: u in old(users) && u.login == login) ==>
                code == BadRequest && users == old(users) && nextId == old(nextId)
      ensures (forall u :: u in old(users) ==> u.login != login) ==>
                && code == Created
                && users == old(users) + [UserRecord(old(nextId), login, password, firstName, lastName, role.GetOr("developer"))]
                && nextId == old(nextId) + 1
      ensures projects == old(projects) && stories == old(stories) && tasks == old(tasks)
    {
      var existing := Find(users, SameLogin(login));
      assert existing.None? <==> forall u :: u in users ==> !SameLogin(login)(u);
      if existing.Some? && existing.value.login == login {
        code := BadRequest;
      } else {
        users := users + [UserRecord(nextId, login, password, firstName, lastName, role.GetOr(DefaultRole))];
        nextId := nextId + 1;
        code := Created;
      }
    }

    /**
     * `/google-login`, given what a successful verification yields: 400 when
     * the verified ticket has no payload; otherwise reuse or save the user for
     * the email, then the same outcome as `/login`.
     */
    method GoogleLogin(payload: Option<GooglePayload>, accessMs: int, refreshMs: int) returns (reply: LoginReply)
      requires Valid()
      modifies this
      ensures Valid()
      ensures payload.None? ==> reply == InvalidGoogleToken && users == old(users) && nextId == old(nextId)
      ensures payload.Some? ==>
                var (u, created) := ResolveGoogleUser(old(users), old(nextId), payload.value);
                && reply == OpenSession(u, accessMs, refreshMs)
                && users == (if created then old(users) + [u] else old(users))
                && nextId == (if created then old(nextId) + 1 else old(nextId))
      ensures projects == old(projects) && stories == old(stories) && tasks == old(tasks)
    {
      if payload.None? {
        return InvalidGoogleToken;
      }
      var (u, created) := ResolveGoogleUser(users, nextId, payload.value);
      if created {
        users := users + [u];
        nextId := nextId + 1;
      }
      reply := OpenSession(u, accessMs, refreshMs);
    }

    /** `GET /users`: the whole user collection. */
    method ListUsers() returns (code: int, r: seq<UserRecord>)
      ensures code == Ok && r == users
    {
      code, r := Ok, users;
    }

    // ---------- projects ----------

    /** `GET /projects`. */
    method ListProjects() returns (code: int, r: map<Id, ProjectDoc>)
      ensures code == Ok && r == projects
    {
      code, r := Ok, projects;
    }

    /** `GET /projects/:id`: the document, or 404. */
    method GetProject(id: Id) returns (code: int, doc: Option<ProjectDoc>)
      ensures id in projects <==> code == Ok
      ensures id in projects ==> doc == Some(projects[id])
      ensures id !in projects ==> code == NotFound && doc == None
    {
      if id !in projects {
        return NotFound, None;
      }
      code, doc := Ok, Some(projects[id]);
    }

    /** `POST /projects`: store the body under a new id, 201. */
    method PostProject(body: ProjectDoc) returns (code: int, id: Id, doc: ProjectDoc)
      requires Valid()
      modifies this
      ensures Valid()
      ensures code == Created && doc == body
      ensures id !in old(projects) && projects == old(projects)[id := body]
      ensures |projects| == |old(projects)| + 1
      ensures users == old(users) && stories == old(stories) && tasks == old(tasks)
    {
      id := nextId;
      projects := projects[id := body];
      nextId := nextId + 1;
      code, doc := Created, body;
    }

    /** `PUT /projects/:id`: 404 when absent, else apply the body and return the updated document. */
    method PutProject(id: Id, body: ProjectDoc) returns (code: int, doc: Option<ProjectDoc>)
      requires Valid()
      modifies this
      ensures Valid()
      ensures id !in old(projects) ==> code == NotFound && doc == None && projects == old(projects)
      ensures id in old(projects) ==>
                && code == Ok
                && projects == old(projects)[id := PatchProject(old(projects)[id], body)]
                && doc == Some(projects[id])
      ensures projects.Keys == old(projects.Keys)
      ensures users == old(users) && stories == old(stories) && tasks == old(tasks) && nextId == old(nextId)
    {
      if id !in projects {
        return NotFound, None;
      }
      projects := projects[id := PatchProject(projects[id], body)];
      code, doc := Ok, Some(projects[id]);
    }

    /** `DELETE /projects/:id`: 404 when absent, else remove it (and nothing else: no cascade), 204. */
    method DeleteProject(id: Id) returns (code: int)
      requires Valid()
      modifies this
      ensures Valid()
      ensures id !in old(projects) ==> code == NotFound && projects == old(projects)
      ensures id in old(projects) ==> code == NoContent && projects == old(projects) - {id}
      ensures |projects| == if id in old(projects) then |old(projects)| - 1 else |old(projects)|
      ensures users == old(users) && stories == old(stories) && tasks == old(tasks) && nextId == old(nextId)
    {
      if id !in projects {
        return NotFound;
      }
      projects := projects - {id};
      code := NoContent;
    }

    // ---------- stories ----------

    /** `GET /stories?projectId=`: exactly the stories whose `projectId` is the query value. */
    method ListStories(projectId: Option<Id>) returns (code: int, r: map<Id, StoryDoc>)
      ensures code == Ok
      ensures forall id :: id in r <==> id in stories && stories[id].projectId == projectId
      ensures forall id :: id in r ==> r[id] == stories[id]
    {
      code := Ok;
      r := map id | id in stories && stories[id].projectId == projectId :: stories[id];
    }

    /** `POST /stories`: store the body under a new id, 201. */
    method PostStory(body: StoryDoc) returns (code: int, id: Id, doc: StoryDoc)
      requires Valid()
      modifies this
      ensures Valid()
      ensures code == Created && doc == body
      ensures id !in old(stories) && stories == old(stories)[id := body]
      ensures users == old(users) && projects == old(projects) && tasks == old(tasks)
    {
      id := nextId;
      stories := stories[id := body];
      nextId := nextId + 1;
      code, doc := Created, body;
    }

    /** `PUT /stories/:id`. */
    method PutStory(id: Id, body: StoryDoc) returns (code: int, doc: Option<StoryDoc>)
      requires Valid()
      modifies this
      ensures Valid()
      ensures id !in old(stories) ==> code == NotFound && doc == None && stories == old(stories)
      ensures id in old(stories) ==>
                && code == Ok
                && stories == old(stories)[id := PatchStory(old(stories)[id], body)]
                && doc == Some(stories[id])
      ensures users == old(users) && projects == old(projects) && tasks == old(tasks) && nextId == old(nextId)
    {
      if id !in stories {
        return NotFound, None;
      }
      stories := stories[id := PatchStory(stories[id], body)];
      code, doc := Ok, Some(stories[id]);
    }

    /** `DELETE /stories/:id`. */
    method DeleteStory(id: Id) returns (code: int)
      requires Valid()
      modifies this
      ensures Valid()
      ensures id !in old(stories) ==> code == NotFound && stories == old(stories)
      ensures id in old(stories) ==> code == NoContent && stories == old(stories) - {id}
      ensures users == old(users) && projects == old(projects) && tasks == old(tasks) && nextId == old(nextId)
    {
      if id !in stories {
        return NotFound;
      }
      stories := stories - {id};
      code := NoContent;
    }

    // ---------- tasks ----------

    /** `GET /tasks?storyId=`: exactly the tasks whose `storyId` is the query value. */
    method ListTasks(storyId: Option<Id>) returns (code: int, r: map<Id, TaskDoc>)
      ensures code == Ok
      ensures forall id :: id in r <==> id in tasks && tasks[id].storyId == storyId
      ensures forall id :: id in r ==> r[id] == tasks[id]
    {
      code := Ok;
      r := map id | id in tasks && tasks[id].storyId == storyId :: tasks[id];
    }

    /** `GET /tasks/:id`. */
    method GetTask(id: Id) returns (code: int, doc: Option<TaskDoc>)
      ensures id in tasks <==> code == Ok
      ensures id in tasks ==> doc == Some(tasks[id])
      ensures id !in tasks ==> code == NotFound && doc == None
    {
      if id !in tasks {
        return NotFound, None;
      }
      code, doc := Ok, Some(tasks[id]);
    }

    /**
     * `POST /tasks`: a body that passes the schema is stored under a new id
     * (201); otherwise nothing is stored and the error surfaces as 500.
     */
    method PostTask(body: TaskDoc, nowMs: int) returns (code: int, id: Option<Id>, doc: Option<TaskDoc>)
      requires Valid()
      modifies this
      ensures Valid()
      ensures CreateTask(body, nowMs).None? ==>
                code == InternalError && id == None && doc == None && tasks == old(tasks) && nextId == old(nextId)
      ensures CreateTask(body, nowMs).Some? ==>
                && code == Created && id.Some? && doc == CreateTask(body, nowMs)
                && id.value !in old(tasks)
                && tasks == old(tasks)[id.value := CreateTask(body, nowMs).value]
      ensures users == old(users) && projects == old(projects) && stories == old(stories)
    {
      var created := CreateTask(body, nowMs);
      if created.None? {
        return InternalError, None, None;
      }
      tasks := tasks[nextId := created.value];
      code, id, doc := Created, Some(nextId), created;
      nextId := nextId + 1;
    }

    /** `PUT /tasks/:id`: no schema validation runs on an update. */
    method PutTask(id: Id, body: TaskDoc) returns (code: int, doc: Option<TaskDoc>)
      requires Valid()
      modifies this
      ensures Valid()
      ensures id !in old(tasks) ==> code == NotFound && doc == None && tasks == old(tasks)
      ensures id in old(tasks) ==>
                && code == Ok
                && tasks == old(tasks)[id := PatchTask(old(tasks)[id], body)]
                && doc == Some(tasks[id])
      ensures users == old(users) && projects == old(projects) && stories == old(stories) && nextId == old(nextId)
    {
      if id !in tasks {
        return NotFound, None;
      }
      tasks := tasks[id := PatchTask(tasks[id], body)];
      code, doc := Ok, Some(tasks[id]);
    }

    /** `DELETE /tasks/:id`. */
    method DeleteTask(id: Id) returns (code: int)
      requires Valid()
      modifies this
      ensures Valid()
      ensures id !in old(tasks) ==> code == NotFound && tasks == old(tasks)
      ensures id in old(tasks) ==> code == NoContent && tasks == old(tasks) - {id}
      ensures users == old(users) && projects == old(projects) && stories == old(stories) && nextId == old(nextId)
    {
      if id !in tasks {
        return NotFound;
      }
      tasks := tasks - {id};
      code := NoContent;
    }
  }

  /**
   * Registering the same login twice: the second attempt is refused and
   * leaves the users as the first left them.
   */
  method RegisterTwice(store: DocumentStore, login: string, password: string, firstName: string, lastName: string)
    returns (first: int, second: int)
    requires store.Valid()
    modifies store
    ensures second == BadRequest
    ensures first == Created ==> |store.users| == |old(store.users)| + 1
  {
    first := store.Register(login, password, firstName, lastName, None);
    var before := store.users;
    second := store.Register(login, password, firstName, lastName, None);
    assert store.users == before;
  }

  /**
   * A task created from a valid body reads back through `GET /tasks/:id`
   * with the priority and status it was given.
   */
  method CreateThenGetTask(store: DocumentStore, body: TaskDoc, nowMs: int) returns (code: int, doc: Option<TaskDoc>)
    requires store.Valid()
    requires CreateTask(body, nowMs).Some?
    modifies store
    ensures code == Ok && doc.Some?
    ensures doc.value.priority == body.priority && doc.value.status == body.status
  {
    var postCode, id, _ := store.PostTask(body, nowMs);
    code, doc := store.GetTask(id.value);
  }

  /** Deleting a project keeps the stories that reference it. */
  method DeleteProjectKeepsStories(store: DocumentStore, projectId: Id) returns (code: int, left: map<Id, StoryDoc>)
    requires store.Valid()
    modifies store
    ensures code == Ok
    ensures forall id :: id in old(store.stories) && old(store.stories)[id].projectId == Some(projectId) ==> id in left
  {
    var _ := store.DeleteProject(projectId);
    code, left := store.ListStories(Some(projectId));
  }
}
