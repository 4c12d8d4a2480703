# ManagMe: a model of its repository and request logic

ManagMe is a project-management application. Users register or sign in, and they can use a Google identity. They then manage Projects, which hold Stories, which hold Tasks. This Dafny project models the two places where that application has logic:

- **The client's local-storage repository** (`ProjectAPI`). It keeps projects, stories and users as whole arrays under named storage keys. It also keeps a "current project" pointer, both in a static field and under a storage key. `LocalStore.ProjectApi` is a class with two fields:
  - the storage, a map from key to stored entry;
  - the static pointer.

  Reads are functions. Every create, update, delete, register, login, logout and set-current operation is a method. Its postcondition gives the whole new storage in terms of the old one. The generic table operations it is built from are in `Lists`: `FirstIndex` (`findIndex`), `Find` (`find`) and `Filter` (`filter`). The lemmas about them are in the same module.
- **The server's request handlers.** `Server.DocumentStore` is a class with five fields:
  - the user collection, as a sequence in the order lookups scan it;
  - the project, story and task collections, as maps from id to document;
  - the id counter.

  Each handler is a method returning the HTTP status code and, where the handler sends one, the document. Three modules hold the pure decisions:
  - `Auth`: token expiry, the ordered checks of `/login`, and the user a Google identity resolves to;
  - `Documents`: the document shapes, update by field override, and the Task schema's validation;
  - `Domain`: the priority, status and role enumerations.

Time is a parameter: readings of the clock in milliseconds. Google's verification of an identity token is an input, `Option<GooglePayload>`. A token is its unsigned payload.

Four behaviours of the handlers are easy to misread; the model reads them as follows:

- **PUT is a partial update.** `findByIdAndUpdate` with a plain body applies it as a `$set`. The fields the body leaves out keep their stored values (`Documents.PatchTaskLaws` and its siblings).
- **An update skips the Task schema.** A task update runs no schema validation (`Documents.PatchSkipsValidation`).
- **A rejected task gives 500.** A task body that fails the schema is answered with 500, from the handler's `catch`, not with a dedicated 400.
- **The model reads an absent list filter as matching a missing field.** It treats an `undefined` filter value as matching a missing field. With no `projectId` (or `storyId`) query value, the modelled list therefore returns the documents whose reference is absent.

## Model

| member | source | states |
|---|---|---|
| `Lists.FirstIndex` | src/api/ProjectAPI.ts:26-28 | the index returned matches and no earlier element does; `None` exactly when no element matches |
| `Lists.Find` | src/api/ProjectAPI.ts:13-16 | the result is absent exactly when nothing matches; otherwise it is the element at the first matching index |
| `Lists.Filter` | src/api/ProjectAPI.ts:35-39 | every kept element satisfies the predicate; each value occurs as often as in the input if it satisfies the predicate, else not at all |
| `Lists.FilterIsSubsequence` | src/api/ProjectAPI.ts:57-60 | a filter's result is a subsequence of its input (relative order kept) |
| `Lists.FilterIdempotent` | src/api/ProjectAPI.ts:35-39 | filtering twice by the same predicate equals filtering once (delete is idempotent) |
| `Lists.FirstIndexAppend` | src/api/ProjectAPI.ts:18-22 | appending keeps an existing first match; otherwise the appended element is the first match if it matches |
| `Lists.FirstIndexAfterReplace` | src/api/ProjectAPI.ts:24-33 | replacing the first match by a matching element keeps it the first match |
| `LocalStore.NoProjectAfterDelete` | src/api/ProjectAPI.ts:35-39 | after filtering out an id, no project with that id can be found |
| `LocalStore.NoStoryAfterDelete` | src/api/ProjectAPI.ts:77-81 | after filtering out an id, no story with that id can be found |
| `LocalStore.ProjectApi.constructor` | src/api/ProjectAPI.ts:6-6 | on a page load the static pointer is null, so the current project comes from the stored id (none if that id is empty or absent) |
| `LocalStore.ProjectApi.GetProjects` | src/api/ProjectAPI.ts:8-11 | an absent `projects` key reads as the empty sequence; a present one as the stored array |
| `LocalStore.ProjectApi.GetProject` | src/api/ProjectAPI.ts:13-16 | null exactly when no stored project has the id; otherwise the first stored project with that id |
| `LocalStore.ProjectApi.CreateProject` | src/api/ProjectAPI.ts:18-22 | the project is appended; earlier projects keep their positions; no other key changes; lookup by its id finds an earlier same-id project if there was one, else this one |
| `LocalStore.ProjectApi.UpdateProject` | src/api/ProjectAPI.ts:24-33 | only the first project with the same id is replaced and the length is kept; with no match nothing is written |
| `LocalStore.ProjectApi.DeleteProject` | src/api/ProjectAPI.ts:35-39 | the stored projects become exactly those with another id, in their original order; the id is no longer found; a second delete of the same id writes back the same storage |
| `LocalStore.ProjectApi.SetCurrentProject` | src/api/ProjectAPI.ts:41-44 | sets the field and the stored id; afterwards the current project is the project with that id (none for the empty id, which is falsy) |
| `LocalStore.ProjectApi.GetCurrentProject` | src/api/ProjectAPI.ts:46-50 | a truthy static field wins over the stored id; the result is the stored project with the id in effect, or null |
| `LocalStore.ProjectApi.GetStories` | src/api/ProjectAPI.ts:52-55 | an absent `stories` key reads as the empty sequence; a present one as the stored array |
| `LocalStore.ProjectApi.GetStoriesByProjectId` | src/api/ProjectAPI.ts:57-60 | exactly the stored stories of the project, with their multiplicities, as a subsequence of all stories |
| `LocalStore.ProjectApi.CreateStory` | src/api/ProjectAPI.ts:62-66 | the story is appended; earlier stories keep their positions; no other key changes |
| `LocalStore.ProjectApi.UpdateStory` | src/api/ProjectAPI.ts:68-75 | only the first story with the same id is replaced and the length is kept; with no match nothing is written |
| `LocalStore.ProjectApi.DeleteStory` | src/api/ProjectAPI.ts:77-81 | the stored stories become exactly those with another id, in order; a second delete writes back the same storage |
| `LocalStore.ProjectApi.GetUsers` | src/api/ProjectAPI.ts:103-106 | null exactly when the users key is absent (unlike projects and stories, which read as empty); otherwise the stored array |
| `LocalStore.ProjectApi.GetCurrentUser` | src/api/ProjectAPI.ts:107-110 | null exactly when no current user is stored; otherwise the stored user |
| `LocalStore.ProjectApi.Register` | src/api/ProjectAPI.ts:84-88 | the user is appended to the stored users (an absent key counts as empty), with no duplicate-login check |
| `LocalStore.ProjectApi.Login` | src/api/ProjectAPI.ts:90-102 | succeeds exactly when some user matches both login and password; the first such user becomes the current user; on failure storage is unchanged |
| `LocalStore.ProjectApi.Logout` | src/api/ProjectAPI.ts:112-114 | removes the current user and nothing else |
| `Auth.GenerateToken` | server/index.ts:47-61 | the payload carries the claims; its expiry is the lifetime plus the issue time rounded down to whole seconds |
| `Auth.OpenSession` | server/index.ts:88-109 | an empty first or last name gives the incomplete-profile outcome; otherwise both tokens carry the user's id, role and names, expiring 900 s and 86400 s after their clock readings |
| `Auth.RefreshOutlivesAccess` | server/index.ts:91-108 | with one clock reading the refresh token expires exactly 85500 s after the access token |
| `Auth.RefreshGapWithTwoReadings` | server/index.ts:91-108 | with the two clock readings less than a second apart the gap is 85500 s or 85501 s |
| `Auth.Login` | server/index.ts:82-110 | 401 exactly when no user matches login and password; otherwise the outcome of the first matching user: 400 if its profile is incomplete, else 200 with tokens |
| `Auth.ResolveGoogleUser` | server/index.ts:126-137 | reuses the first user whose login is the email; a new one is created exactly when none exists, with an empty password, role "developer" and names from the payload or "" |
| `Auth.GoogleUserLogsInWithEmptyPassword` | server/index.ts:126-137 | a user created by Google sign-in, with both names, is stored with an empty password, so a password login with that email and an empty password opens a session for that user |
| `Auth.NamelessGoogleUserRefused` | server/index.ts:126-140 | a new Google identity without a given name creates a user and is still refused as incomplete |
| `Documents.ParsePriorityRoundTrip` | server/index.ts:343-347 | the priority enum accepts exactly "low", "medium" and "high", each as its own value |
| `Documents.ParseStatusRoundTrip` | server/index.ts:357-361 | the status enum accepts exactly "todo", "doing" and "done", each as its own value |
| `Documents.CreateTask` | server/index.ts:334-379 | a task is accepted exactly when name and description are non-empty, storyId and estimatedTime are present, and priority and status are enum values; createdAt keeps a value the body gives and defaults to now only when the body has none; nothing else is changed |
| `Documents.CreatedTaskKeepsFields` | server/index.ts:415-419 | an accepted task keeps the priority, status, name, storyId and estimatedTime it was given, and the createdAt when one was given |
| `Documents.PatchProjectLaws` | server/index.ts:216-222 | a body without fields leaves the project unchanged; a field the body carries is the stored value afterwards, and one it omits keeps its old value; repeating the same update changes nothing more |
| `Documents.PatchStoryLaws` | server/index.ts:305-310 | an empty body leaves the story unchanged; each of the seven fields is the body's value when the body carries it and the stored value otherwise; repeating the same update changes nothing more |
| `Documents.PatchTaskLaws` | server/index.ts:426-430 | an empty body leaves the task unchanged; each of the ten fields is the body's value when the body carries it and the stored value otherwise; repeating the same update changes nothing more |
| `Documents.PatchSkipsValidation` | server/index.ts:426-430 | an update can store a priority outside the enum |
| `Server.DocumentStore.Register` | server/index.ts:63-72 | a taken login gives 400 and no change; otherwise exactly one user is appended, with role defaulting to "developer", and 201 |
| `Server.DocumentStore.GoogleLogin` | server/index.ts:111-169 | a verified ticket with no payload gives 400 and no change; otherwise the resolved user is saved if new, before the completeness check, and the reply is that user's session outcome |
| `Server.DocumentStore.ListUsers` | server/index.ts:73-81 | 200 with the whole user collection |
| `Server.DocumentStore.ListProjects` | server/index.ts:178-186 | 200 with every project |
| `Server.DocumentStore.GetProject` | server/index.ts:188-200 | 200 with the document exactly when the id is stored; otherwise 404 |
| `Server.DocumentStore.PostProject` | server/index.ts:202-214 | 201; the body is stored under a new id and the collection grows by one |
| `Server.DocumentStore.PutProject` | server/index.ts:216-231 | 404 and no change for an absent id; otherwise the body's fields override the stored ones and the updated document is returned |
| `Server.DocumentStore.DeleteProject` | server/index.ts:233-244 | 404 and no change for an absent id; otherwise exactly that project is removed, stories and tasks untouched, 204 |
| `Server.DocumentStore.ListStories` | server/index.ts:262-272 | exactly the stories whose projectId equals the query value |
| `Server.DocumentStore.PostStory` | server/index.ts:283-303 | 201; the body is stored under a new id |
| `Server.DocumentStore.PutStory` | server/index.ts:305-319 | 404 and no change for an absent id; otherwise the updated document |
| `Server.DocumentStore.DeleteStory` | server/index.ts:321-332 | 404 and no change for an absent id; otherwise exactly that story is removed, 204 |
| `Server.DocumentStore.ListTasks` | server/index.ts:382-391 | exactly the tasks whose storyId equals the query value |
| `Server.DocumentStore.GetTask` | server/index.ts:402-413 | 200 with the document exactly when the id is stored; otherwise 404 |
| `Server.DocumentStore.PostTask` | server/index.ts:415-424 | a body failing the schema gives 500 and stores nothing; otherwise the validated task is stored under a new id, 201 |
| `Server.DocumentStore.PutTask` | server/index.ts:426-439 | 404 and no change for an absent id; otherwise the body's fields override the stored ones, without validation |
| `Server.DocumentStore.DeleteTask` | server/index.ts:441-452 | 404 and no change for an absent id; otherwise exactly that task is removed, 204 |
| `Server.RegisterTwice` | server/index.ts:63-72 | registering the same login twice: the second attempt gives 400 |
| `Server.CreateThenGetTask` | server/index.ts:402-424 | a valid task read back after creation has the priority and status it was created with |
| `Server.DeleteProjectKeepsStories` | server/index.ts:233-266 | after a project is deleted its stories are still listed under its id (no cascade) |

## Left out

- Token signing with HS256 and the secret it uses (server/index.ts:57-59). A token is modelled as its unsigned payload.
- Google ID-token verification is a network call. The model takes what a successful verification yields as an input: a payload, or `None` when the verified ticket carries no payload (the 400 of server/index.ts:122-124).
- The document-store connection, the Express and CORS setup, logging, and most 500 answers. Those come from store exceptions, from malformed ids that fail to cast, and, in `/google-login`, from a token that fails verification: `verifyIdToken` rejects and the `catch` answers 500 (server/index.ts:115-118, 163-168). The only 500 modelled is a task that fails the schema.
- The second `GET /stories` and `GET /tasks` handlers (server/index.ts:273-281, 392-400) are never reached: the first handler for the same route always answers.
- Request bodies are well-typed values. For `/register`, `/login` and the user names, a missing field is the empty string; only `role` may be absent. `estimatedTime` and the dates are integers, not JavaScript numbers.
- The JSON text and the local-storage calls are replaced by a key-to-entry map. The `token` and `refreshToken` keys are not used by this class and are not modelled.
- `LocalStore.ProjectApi.Login` returns `found` where the source shows an alert. The alert itself is not modelled.
- The static field `currentProjectId` is a field of the one `ProjectApi` object, so it is not shared between instances.
- Server.DocumentStore.ListProjects: returns the collection as a map from id, so it does not state the order the store lists documents in.
- Server.DocumentStore.ListStories: returns a map from id, so it does not state the listing order.
- Server.DocumentStore.ListTasks: returns a map from id, so it does not state the listing order.
- An `undefined` filter value may be dropped from the filter instead of matching a missing field. Under that reading an absent query lists every story, and a Google payload without an email matches the first stored user. The model does not cover that reading.
- Concurrency between requests: each handler is one atomic step on the store.
