/**
 * The server's stored documents (Project, Story and Task schemas) and the
 * validation the Task schema applies when a task is saved.
 *
 * A field absent from a document or a request body is `None`. Updates apply
 * the fields a body carries and keep the others (a `$set` of the body).
 */
module Documents {
  import opened Wrappers
  import opened Domain

  /** A document id, as the store generates it. */
  type Id = nat

  datatype ProjectDoc = ProjectDoc(name: Option<string>, description: Option<string>)

  datatype StoryDoc = StoryDoc(
    projectId: Option<Id>,
    name: Option<string>,
    description: Option<string>,
    status: Option<string>,
    createdAt: Option<string>,
    priority: Option<string>,
    ownerId: Option<string>)

  /** Times are milliseconds since the epoch. */
  datatype TaskDoc = TaskDoc(
    name: Option<string>,
    description: Option<string>,
    priority: Option<string>,
    storyId: Option<Id>,
    estimatedTime: Option<int>,
    status: Option<string>,
    createdAt: Option<int>,
    startAt: Option<int>,
    endAt: Option<int>,
    assignedUser: Option<string>)

  /** A field of an update body overrides the stored one when present. */
  function Override<T>(stored: Option<T>, given: Option<T>): Option<T> {
    if given.Some? then given else stored
  }

  function PatchProject(d: ProjectDoc, body: ProjectDoc): ProjectDoc {
    ProjectDoc(Override(d.name, body.name), Override(d.description, body.description))
  }

  function PatchStory(d: StoryDoc, body: StoryDoc): StoryDoc {
    StoryDoc(
      Override(d.projectId, body.projectId),
      Override(d.name, body.name),
      Override(d.description, body.description),
      Override(d.status, body.status),
      Override(d.createdAt, body.createdAt),
      Override(d.priority, body.priority),
      Override(d.ownerId, body.ownerId))
  }

  function PatchTask(d: TaskDoc, body: TaskDoc): TaskDoc {
    TaskDoc(
      Override(d.name, body.name),
      Override(d.description, body.description),
      Override(d.priority, body.priority),
      Override(d.storyId, body.storyId),
      Override(d.estimatedTime, body.estimatedTime),
      Override(d.status, body.status),
      Override(d.createdAt, body.createdAt),
      Override(d.startAt, body.startAt),
      Override(d.endAt, body.endAt),
      Override(d.assignedUser, body.assignedUser))
  }

  /** Update bodies that carry no field at all. */
  const EmptyProjectBody := ProjectDoc(None, None)
  const EmptyStoryBody := StoryDoc(None, None, None, None, None, None, None)
  const EmptyTaskBody := TaskDoc(None, None, None, None, None, None, None, None, None, None)

  /**
   * An update of a project: an empty body changes nothing, each field the body
   * carries is stored, each it omits is kept, and repeating it changes nothing more.
   */
  lemma PatchProjectLaws(d: ProjectDoc, body: ProjectDoc)
    ensures PatchProject(d, EmptyProjectBody) == d
    ensures var r := PatchProject(d, body);
            && r.name == (if body.name.Some? then body.name else d.name)
            && r.description == (if body.description.Some? then body.description else d.description)
    ensures PatchProject(PatchProject(d, body), body) == PatchProject(d, body)
  {
  }

  lemma PatchStoryLaws(d: StoryDoc, body: StoryDoc)
    ensures PatchStory(d, EmptyStoryBody) == d
    ensures var r := PatchStory(d, body);
            && r.projectId == (if body.projectId.Some? then body.projectId else d.projectId)
            && r.name == (if body.name.Some? then body.name else d.name)
            && r.description == (if body.description.Some? then body.description else d.description)
            && r.status == (if body.status.Some? then body.status else d.status)
            && r.createdAt == (if body.createdAt.Some? then body.createdAt else d.createdAt)
            && r.priority == (if body.priority.Some? then body.priority else d.priority)
            && r.ownerId == (if body.ownerId.Some? then body.ownerId else d.ownerId)
    ensures PatchStory(PatchStory(d, body), body) == PatchStory(d, body)
  {
  }

  lemma PatchTaskLaws(d: TaskDoc, body: TaskDoc)
    ensures PatchTask(d, EmptyTaskBody) == d
    ensures var r := PatchTask(d, body);
            && r.name == (if body.name.Some? then body.name else d.name)
            && r.description == (if body.description.Some? then body.description else d.description)
            && r.priority == (if body.priority.Some? then body.priority else d.priority)
            && r.storyId == (if body.storyId.Some? then body.storyId else d.storyId)
            && r.estimatedTime == (if body.estimatedTime.Some? then body.estimatedTime else d.estimatedTime)
            && r.status == (if body.status.Some? then body.status else d.status)
            && r.createdAt == (if body.createdAt.Some? then body.createdAt else d.createdAt)
            && r.startAt == (if body.startAt.Some? then body.startAt else d.startAt)
            && r.endAt == (if body.endAt.Some? then body.endAt else d.endAt)
            && r.assignedUser == (if body.assignedUser.Some? then body.assignedUser else d.assignedUser)
    ensures PatchTask(PatchTask(d, body), body) == PatchTask(d, body)
  {
  }

  /** The Task schema's `enum` for priority, read from the request's text. */
  function ParsePriority(s: string): Option<Priority> {
    if s == "low" then Some(Low)
    else if s == "medium" then Some(Medium)
    else if s == "high" then Some(High)
    else None
  }

  /** The Task schema's `enum` for status. */
  function ParseStatus(s: string): Option<Status> {
    if s == "todo" then Some(Todo)
    else if s == "doing" then Some(Doing)
    else if s == "done" then Some(Done)
    else None
  }

  /** The enum accepts exactly the spellings of the three priorities, each as itself. */
  lemma ParsePriorityRoundTrip(s: string, p: Priority)
    ensures ParsePriority(PriorityName(p)) == Some(p)
    ensures ParsePriority(s) == Some(p) ==> s == PriorityName(p)
  {
  }

  lemma ParseStatusRoundTrip(s: string, st: Status)
    ensures ParseStatus(StatusName(st)) == Some(st)
    ensures ParseStatus(s) == Some(st) ==> s == StatusName(st)
  {
  }

  /** A `required` string: present and not empty. */
  predicate Present(s: Option<string>) {
    s.Some? && s.value != ""
  }

  /**
   * Saving a new task: `createdAt` defaults to the time of creation, then the
   * required fields and the two enums are checked; `None` is a validation error.
   */
  function CreateTask(body: TaskDoc, nowMs: int): (r: Option<TaskDoc>)
    ensures r.Some? <==>
              && Present(body.name)
              && Present(body.description)
              && body.storyId.Some?
              && body.estimatedTime.Some?
              && (exists p :: body.priority == Some(PriorityName(p)))
              && (exists st :: body.status == Some(StatusName(st)))
    ensures r.Some? ==> r.value.createdAt.Some?
    ensures r.Some? && body.createdAt.None? ==> r.value.createdAt == Some(nowMs)
    ensures r.Some? && body.createdAt.Some? ==> r.value.createdAt == body.createdAt
    ensures r.Some? ==> r.value.(createdAt := body.createdAt) == body
  {
    var doc := body.(createdAt := Some(body.createdAt.GetOr(nowMs)));
    if && Present(doc.name)
       && Present(doc.description)
       && doc.priority.Some? && ParsePriority(doc.priority.value).Some?
       && doc.storyId.Some?
       && doc.estimatedTime.Some?
       && doc.status.Some? && ParseStatus(doc.status.value).Some?
    then
      ParsePriorityRoundTrip(doc.priority.value, ParsePriority(doc.priority.value).value);
      ParseStatusRoundTrip(doc.status.value, ParseStatus(doc.status.value).value);
      Some(doc)
    else
      assert forall p :: ParsePriority(PriorityName(p)) == Some(p) by {
        forall p ensures ParsePriority(PriorityName(p)) == Some(p) { ParsePriorityRoundTrip("", p); }
      }
      assert forall st :: ParseStatus(StatusName(st)) == Some(st) by {
        forall st ensures ParseStatus(StatusName(st)) == Some(st) { ParseStatusRoundTrip("", st); }
      }
      None
  }

  /** A task built by `CreateTask` is stored with the values it was given. */
  lemma CreatedTaskKeepsFields(body: TaskDoc, nowMs: int)
    requires CreateTask(body, nowMs).Some?
    ensures var t := CreateTask(body, nowMs).value;
            t.priority == body.priority && t.status == body.status &&
            t.name == body.name && t.storyId == body.storyId && t.estimatedTime == body.estimatedTime &&
            (body.createdAt.Some? ==> t.createdAt == body.createdAt)
  {
  }

  /** An update applies no schema check: it can store a priority outside the enum. */
  lemma PatchSkipsValidation(d: TaskDoc)
    ensures var t := PatchTask(d, EmptyTaskBody.(priority := Some("urgent")));
            t.priority == Some("urgent") && ParsePriority("urgent") == None
  {
  }
}
