/**
 * The hierarchy tables (internal/hierarchy/store.go): workspaces, projects, topics,
 * stories and permissions, and the cascading deletes.  A table is the sequence of
 * its rows in id order; columns that no rule reads are one `details` value.
 */
module Hierarchy {
  import opened Basics

  datatype Workspace = Workspace(id: int, details: string)
  datatype Project = Project(id: int, workspaceId: int, details: string)
  datatype Topic = Topic(id: int, projectId: int, details: string)
  datatype Story = Story(id: int, topicId: int, sessionKey: Option<string>, details: string)
  datatype Resource = OnWorkspace | OnProject
  datatype Permission = Permission(userId: int, resource: Resource, resourceId: int, level: int)

  datatype Tables = Tables(
    workspaces: seq<Workspace>, projects: seq<Project>, topics: seq<Topic>, stories: seq<Story>,
    permissions: seq<Permission>)

  /** The rows that satisfy a condition, in order. */
  function Keep<T(!new)>(rows: seq<T>, p: T -> bool): (r: seq<T>)
    ensures forall x :: x in r <==> x in rows && p(x)
  {
    if rows == [] then []
    else
      var n := |rows| - 1;
      Keep(rows[..n], p) + if p(rows[n]) then [rows[n]] else []
  }

  /** A DELETE drops rows and neither repeats nor changes one. */
  lemma {:induction false} KeepCounts<T(!new)>(rows: seq<T>, p: T -> bool, x: T)
    ensures multiset(Keep(rows, p))[x] == if p(x) then multiset(rows)[x] else 0
  {
    if rows != [] {
      var n := |rows| - 1;
      KeepCounts(rows[..n], p, x);
      assert rows == rows[..n] + [rows[n]];
    }
  }

  lemma {:induction false} KeepAll<T(!new)>(rows: seq<T>, p: T -> bool)
    requires forall x :: x in rows ==> p(x)
    ensures Keep(rows, p) == rows
  {
    if rows != [] {
      KeepAll(rows[..|rows| - 1], p);
      assert rows == rows[..|rows| - 1] + [rows[|rows| - 1]];
    }
  }

  lemma KeptIff<T(!new)>(rows: seq<T>, p: T -> bool)
    ensures Keep(rows, p) == rows <==> forall x :: x in rows ==> p(x)
  {
    if forall x :: x in rows ==> p(x) {
      KeepAll(rows, p);
    }
  }

  // ---- ids and foreign keys ------------------------------------------------------------------

  ghost function WorkspaceIds(t: Tables): set<int> {
    set w | w in t.workspaces :: w.id
  }

  ghost function ProjectIds(t: Tables): set<int> {
    set p | p in t.projects :: p.id
  }

  ghost function TopicIds(t: Tables): set<int> {
    set x | x in t.topics :: x.id
  }

  /** SELECT id FROM projects WHERE workspace_id = ? */
  function ProjectsOf(projects: seq<Project>, workspaceId: int): set<int> {
    set p | p in projects && p.workspaceId == workspaceId :: p.id
  }

  /** SELECT id FROM topics WHERE project_id IN (...) */
  function TopicsIn(topics: seq<Topic>, projectIds: set<int>): set<int> {
    set x | x in topics && x.projectId in projectIds :: x.id
  }

  ghost predicate ForeignKeysHold(t: Tables) {
    && (forall p :: p in t.projects ==> p.workspaceId in WorkspaceIds(t))
    && (forall x :: x in t.topics ==> x.projectId in ProjectIds(t))
    && (forall s :: s in t.stories ==> s.topicId in TopicIds(t))
  }

  ghost predicate ProjectIdsDiffer(t: Tables) {
    forall p, q :: p in t.projects && q in t.projects && p.id == q.id ==> p == q
  }

  ghost predicate TopicIdsDiffer(t: Tables) {
    forall x, y :: x in t.topics && y in t.topics && x.id == y.id ==> x == y
  }

  // ---- cascading deletes -----------------------------------------------------------------------

  datatype Statement =
    | PermissionsOfProjectsIn(ws: int)
    | PermissionsOfWorkspace(ws: int)
    | StoriesOfWorkspace(ws: int)
    | TopicsOfWorkspace(ws: int)
    | ProjectsOfWorkspace(ws: int)
    | WorkspaceRow(ws: int)
    | PermissionsOfProject(p: int)
    | StoriesOfProject(p: int)
    | TopicsOfProject(p: int)
    | ProjectRow(p: int)
    | StoriesOfTopic(t: int)
    | TopicRow(t: int)

  // The WHERE clauses, as conditions on the rows that stay.

  function ProjectsFree(ids: set<int>): Permission -> bool {
    (q: Permission) => !(q.resource.OnProject? && q.resourceId in ids)
  }

  function WorkspaceFree(ws: int): Permission -> bool {
    (q: Permission) => !(q.resource.OnWorkspace? && q.resourceId == ws)
  }

  function StoriesOutside(topicIds: set<int>): Story -> bool {
    (s: Story) => s.topicId !in topicIds
  }

  function TopicsOutside(projectIds: set<int>): Topic -> bool {
    (x: Topic) => x.projectId !in projectIds
  }

  function ProjectsOutside(ws: int): Project -> bool {
    (p: Project) => p.workspaceId != ws
  }

  function OtherWorkspaces(id: int): Workspace -> bool {
    (w: Workspace) => w.id != id
  }

  function OtherProjects(id: int): Project -> bool {
    (p: Project) => p.id != id
  }

  function OtherTopics(id: int): Topic -> bool {
    (x: Topic) => x.id != id
  }

  /** One DELETE. */
  function Exec(t: Tables, statement: Statement): Tables {
    match statement
    case PermissionsOfProjectsIn(ws) => t.(permissions := Keep(t.permissions, ProjectsFree(ProjectsOf(t.projects, ws))))
    case PermissionsOfWorkspace(ws) => t.(permissions := Keep(t.permissions, WorkspaceFree(ws)))
    case StoriesOfWorkspace(ws) =>
      t.(stories := Keep(t.stories, StoriesOutside(TopicsIn(t.topics, ProjectsOf(t.projects, ws)))))
    case TopicsOfWorkspace(ws) => t.(topics := Keep(t.topics, TopicsOutside(ProjectsOf(t.projects, ws))))
    case ProjectsOfWorkspace(ws) => t.(projects := Keep(t.projects, ProjectsOutside(ws)))
    case WorkspaceRow(ws) => t.(workspaces := Keep(t.workspaces, OtherWorkspaces(ws)))
    case PermissionsOfProject(p) => t.(permissions := Keep(t.permissions, ProjectsFree({p})))
    case StoriesOfProject(p) => t.(stories := Keep(t.stories, StoriesOutside(TopicsIn(t.topics, {p}))))
    case TopicsOfProject(p) => t.(topics := Keep(t.topics, TopicsOutside({p})))
    case ProjectRow(p) => t.(projects := Keep(t.projects, OtherProjects(p)))
    case StoriesOfTopic(id) => t.(stories := Keep(t.stories, StoriesOutside({id})))
    case TopicRow(id) => t.(topics := Keep(t.topics, OtherTopics(id)))
  }

  /** What is left without the subtree of a workspace and the permissions on it. */
  function WithoutWorkspace(t: Tables, id: int): Tables {
    var projectIds := ProjectsOf(t.projects, id);
    Tables(
      Keep(t.workspaces, OtherWorkspaces(id)), Keep(t.projects, ProjectsOutside(id)),
      Keep(t.topics, TopicsOutside(projectIds)),
      Keep(t.stories, StoriesOutside(TopicsIn(t.topics, projectIds))),
      Keep(Keep(t.permissions, ProjectsFree(projectIds)), WorkspaceFree(id)))
  }

  function WithoutProject(t: Tables, id: int): Tables {
    Tables(
      t.workspaces, Keep(t.projects, OtherProjects(id)), Keep(t.topics, TopicsOutside({id})),
      Keep(t.stories, StoriesOutside(TopicsIn(t.topics, {id}))), Keep(t.permissions, ProjectsFree({id})))
  }

  function WithoutTopic(t: Tables, id: int): Tables {
    t.(topics := Keep(t.topics, OtherTopics(id)), stories := Keep(t.stories, StoriesOutside({id})))
  }

  // ---- foreign keys along a transaction ----------------------------------------------------------

  lemma LeavesFirst(t: Tables, statement: Statement)
    requires ForeignKeysHold(t)
    requires statement.PermissionsOfProjectsIn? || statement.PermissionsOfWorkspace? || statement.StoriesOfWorkspace?
          || statement.PermissionsOfProject? || statement.StoriesOfProject? || statement.StoriesOfTopic?
    ensures ForeignKeysHold(Exec(t, statement))
  {
    var r := Exec(t, statement);
    assert WorkspaceIds(r) == WorkspaceIds(t) && ProjectIds(r) == ProjectIds(t) && TopicIds(r) == TopicIds(t);
  }

  lemma TopicsNext(t: Tables, r: Tables, gone: set<int>)
    requires ForeignKeysHold(t) && r == t.(topics := r.topics)
    requires forall x :: x in r.topics ==> x in t.topics
    requires forall x :: x in t.topics && x !in r.topics ==> x.id in gone
    requires forall s :: s in t.stories ==> s.topicId !in gone
    ensures ForeignKeysHold(r)
  {
    assert WorkspaceIds(r) == WorkspaceIds(t) && ProjectIds(r) == ProjectIds(t);
    forall s | s in r.stories
      ensures s.topicId in TopicIds(r)
    {
      var x :| x in t.topics && x.id == s.topicId;
      assert x in r.topics;
    }
  }

  lemma ProjectsNext(t: Tables, r: Tables, gone: set<int>)
    requires ForeignKeysHold(t) && r == t.(projects := r.projects)
    requires forall p :: p in r.projects ==> p in t.projects
    requires forall p :: p in t.projects && p !in r.projects ==> p.id in gone
    requires forall x :: x in t.topics ==> x.projectId !in gone
    ensures ForeignKeysHold(r)
  {
    assert WorkspaceIds(r) == WorkspaceIds(t) && TopicIds(r) == TopicIds(t);
    forall x | x in r.topics
      ensures x.projectId in ProjectIds(r)
    {
      var p :| p in t.projects && p.id == x.projectId;
      assert p in r.projects;
    }
  }

  lemma WorkspaceLast(t: Tables, id: int)
    requires ForeignKeysHold(t) && forall p :: p in t.projects ==> p.workspaceId != id
    ensures ForeignKeysHold(Exec(t, WorkspaceRow(id)))
  {
    var r := Exec(t, WorkspaceRow(id));
    assert ProjectIds(r) == ProjectIds(t) && TopicIds(r) == TopicIds(t);
    forall p | p in r.projects
      ensures p.workspaceId in WorkspaceIds(r)
    {
      var w :| w in t.workspaces && w.id == p.workspaceId;
      assert w in r.workspaces;
    }
  }

  /** The order matters: were the projects deleted first, every project permission would stay behind. */
  lemma ProjectsFirstLeavesPermissions(t: Tables, id: int)
    ensures Exec(Exec(t, ProjectsOfWorkspace(id)), PermissionsOfProjectsIn(id)).permissions == t.permissions
  {
    var t1 := Exec(t, ProjectsOfWorkspace(id));
    assert ProjectsOf(t1.projects, id) == {};
    KeepAll(t1.permissions, ProjectsFree({}));
  }

  /** Deleting topics keeps the foreign keys exactly when their stories are gone. */
  lemma TopicsKeepKeysIff(t: Tables, projectIds: set<int>)
    requires ForeignKeysHold(t) && TopicIdsDiffer(t)
    ensures ForeignKeysHold(t.(topics := Keep(t.topics, TopicsOutside(projectIds))))
       <==> forall s :: s in t.stories ==> s.topicId !in TopicsIn(t.topics, projectIds)
  {
    var r := t.(topics := Keep(t.topics, TopicsOutside(projectIds)));
    if forall s :: s in t.stories ==> s.topicId !in TopicsIn(t.topics, projectIds) {
      TopicsNext(t, r, TopicsIn(t.topics, projectIds));
    } else {
      var s :| s in t.stories && s.topicId in TopicsIn(t.topics, projectIds);
      assert s.topicId !in TopicIds(r);
    }
  }

  /** Deleting projects keeps them exactly when their topics are gone. */
  lemma ProjectsKeepKeysIff(t: Tables, ws: int)
    requires ForeignKeysHold(t) && ProjectIdsDiffer(t)
    ensures ForeignKeysHold(Exec(t, ProjectsOfWorkspace(ws)))
       <==> forall x :: x in t.topics ==> x.projectId !in ProjectsOf(t.projects, ws)
  {
    var r := Exec(t, ProjectsOfWorkspace(ws));
    if forall x :: x in t.topics ==> x.projectId !in ProjectsOf(t.projects, ws) {
      ProjectsNext(t, r, ProjectsOf(t.projects, ws));
    } else {
      var x :| x in t.topics && x.projectId in ProjectsOf(t.projects, ws);
      assert x.projectId !in ProjectIds(r);
    }
  }

  /**
   * The order matters for the foreign keys too: with the topics deleted before the
   * stories, or the projects before the topics, they hold only if there were none.
   */
  lemma DeleteOrderMatters(t: Tables, ws: int, project: int)
    requires ForeignKeysHold(t) && ProjectIdsDiffer(t) && TopicIdsDiffer(t)
    ensures ForeignKeysHold(Exec(t, TopicsOfProject(project)))
       <==> Exec(t, StoriesOfProject(project)).stories == t.stories
    ensures ForeignKeysHold(Exec(t, TopicsOfWorkspace(ws)))
       <==> Exec(t, StoriesOfWorkspace(ws)).stories == t.stories
    ensures ForeignKeysHold(Exec(t, ProjectsOfWorkspace(ws)))
       <==> Exec(t, TopicsOfWorkspace(ws)).topics == t.topics
  {
    var projectIds := ProjectsOf(t.projects, ws);
    TopicsKeepKeysIff(t, {project});
    TopicsKeepKeysIff(t, projectIds);
    ProjectsKeepKeysIff(t, ws);
    KeptIff(t.stories, StoriesOutside(TopicsIn(t.topics, {project})));
    KeptIff(t.stories, StoriesOutside(TopicsIn(t.topics, projectIds)));
    KeptIff(t.topics, TopicsOutside(projectIds));
    hide ForeignKeysHold, TopicsIn, ProjectsOf;
  }

  /** The statements of DeleteWorkspace, one after the other. */
  lemma WorkspaceDeleted(t: Tables, id: int)
    ensures var t1 := Exec(t, PermissionsOfProjectsIn(id));
            var t2 := Exec(t1, PermissionsOfWorkspace(id));
            var t3 := Exec(t2, StoriesOfWorkspace(id));
            var t4 := Exec(t3, TopicsOfWorkspace(id));
            var t5 := Exec(t4, ProjectsOfWorkspace(id));
            Exec(t5, WorkspaceRow(id)) == WithoutWorkspace(t, id)
  {
  }

  lemma WorkspaceDeleteKeepsKeys(t: Tables, id: int)
    ensures var t1 := Exec(t, PermissionsOfProjectsIn(id));
            var t2 := Exec(t1, PermissionsOfWorkspace(id));
            var t3 := Exec(t2, StoriesOfWorkspace(id));
            var t4 := Exec(t3, TopicsOfWorkspace(id));
            var t5 := Exec(t4, ProjectsOfWorkspace(id));
            ForeignKeysHold(t) ==>
              && ForeignKeysHold(t1) && ForeignKeysHold(t2) && ForeignKeysHold(t3) && ForeignKeysHold(t4)
              && ForeignKeysHold(t5)
              && ForeignKeysHold(Exec(t5, WorkspaceRow(id)))
  {
    hide ForeignKeysHold;
    var t1 := Exec(t, PermissionsOfProjectsIn(id));
    var t2 := Exec(t1, PermissionsOfWorkspace(id));
    var t3 := Exec(t2, StoriesOfWorkspace(id));
    var t4 := Exec(t3, TopicsOfWorkspace(id));
    var t5 := Exec(t4, ProjectsOfWorkspace(id));
    if ForeignKeysHold(t) {
      LeavesFirst(t, PermissionsOfProjectsIn(id));
      LeavesFirst(t1, PermissionsOfWorkspace(id));
      LeavesFirst(t2, StoriesOfWorkspace(id));
      TopicsNext(t3, t4, TopicsIn(t.topics, ProjectsOf(t.projects, id)));
      ProjectsNext(t4, t5, ProjectsOf(t.projects, id));
      WorkspaceLast(t5, id);
    }
  }

  lemma ProjectDeleted(t: Tables, id: int)
    ensures var t1 := Exec(t, PermissionsOfProject(id));
            var t2 := Exec(t1, StoriesOfProject(id));
            var t3 := Exec(t2, TopicsOfProject(id));
            Exec(t3, ProjectRow(id)) == WithoutProject(t, id)
  {
  }

  lemma ProjectDeleteKeepsKeys(t: Tables, id: int)
    ensures var t1 := Exec(t, PermissionsOfProject(id));
            var t2 := Exec(t1, StoriesOfProject(id));
            var t3 := Exec(t2, TopicsOfProject(id));
            ForeignKeysHold(t) ==>
              && ForeignKeysHold(t1) && ForeignKeysHold(t2) && ForeignKeysHold(t3)
              && ForeignKeysHold(Exec(t3, ProjectRow(id)))
  {
    hide ForeignKeysHold;
    var t1 := Exec(t, PermissionsOfProject(id));
    var t2 := Exec(t1, StoriesOfProject(id));
    var t3 := Exec(t2, TopicsOfProject(id));
    if ForeignKeysHold(t) {
      LeavesFirst(t, PermissionsOfProject(id));
      LeavesFirst(t1, StoriesOfProject(id));
      TopicsNext(t2, t3, TopicsIn(t.topics, {id}));
      ProjectsNext(t3, Exec(t3, ProjectRow(id)), {id});
    }
  }

  lemma TopicDeleted(t: Tables, id: int)
    ensures var t1 := Exec(t, StoriesOfTopic(id));
            var t2 := Exec(t1, TopicRow(id));
            t2 == WithoutTopic(t, id) && (ForeignKeysHold(t) ==> ForeignKeysHold(t1) && ForeignKeysHold(t2))
  {
    var t1 := Exec(t, StoriesOfTopic(id));
    if ForeignKeysHold(t) {
      hide ForeignKeysHold;
      LeavesFirst(t, StoriesOfTopic(id));
      TopicsNext(t1, Exec(t1, TopicRow(id)), {id});
    }
  }

  /** Row by row: DeleteWorkspace removes exactly the subtree of the workspace, and the permissions on that subtree. */
  lemma WorkspaceSubtree(t: Tables, id: int)
    ensures forall w :: w in WithoutWorkspace(t, id).workspaces <==> w in t.workspaces && w.id != id
    ensures forall p :: p in WithoutWorkspace(t, id).projects <==> p in t.projects && p.workspaceId != id
    ensures forall x :: x in WithoutWorkspace(t, id).topics <==>
              x in t.topics && !exists p :: p in t.projects && p.workspaceId == id && p.id == x.projectId
    ensures forall s :: s in WithoutWorkspace(t, id).stories <==>
              && s in t.stories
              && !exists x, p :: x in t.topics && p in t.projects && p.workspaceId == id && p.id == x.projectId
                                 && x.id == s.topicId
    ensures forall q :: q in WithoutWorkspace(t, id).permissions <==>
              && q in t.permissions && !(q.resource.OnWorkspace? && q.resourceId == id)
              && !(q.resource.OnProject? && exists p :: p in t.projects && p.workspaceId == id && p.id == q.resourceId)
  {
  }

  lemma ProjectSubtree(t: Tables, id: int)
    ensures WithoutProject(t, id).workspaces == t.workspaces
    ensures forall p :: p in WithoutProject(t, id).projects <==> p in t.projects && p.id != id
    ensures forall x :: x in WithoutProject(t, id).topics <==> x in t.topics && x.projectId != id
    ensures forall s :: s in WithoutProject(t, id).stories <==>
              s in t.stories && !exists x :: x in t.topics && x.projectId == id && x.id == s.topicId
    ensures forall q :: q in WithoutProject(t, id).permissions <==>
              q in t.permissions && !(q.resource.OnProject? && q.resourceId == id)
  {
  }

  lemma TopicSubtree(t: Tables, id: int)
    ensures var r := WithoutTopic(t, id);
            && r.workspaces == t.workspaces && r.projects == t.projects && r.permissions == t.permissions
            && (forall x :: x in r.topics <==> x in t.topics && x.id != id)
            && forall s :: s in r.stories <==> s in t.stories && s.topicId != id
  {
  }

  class Store {
    var workspaces: seq<Workspace>
    var projects: seq<Project>
    var topics: seq<Topic>
    var stories: seq<Story>
    var permissions: seq<Permission>

    function Now(): Tables
      reads this
    {
      Tables(workspaces, projects, topics, stories, permissions)
    }

    /** tx.Exec of one DELETE. */
    method Delete(statement: Statement)
      modifies this
      ensures Now() == Exec(old(Now()), statement)
    {
      match statement
      case PermissionsOfProjectsIn(ws) => permissions := Keep(permissions, ProjectsFree(ProjectsOf(projects, ws)));
      case PermissionsOfWorkspace(ws) => permissions := Keep(permissions, WorkspaceFree(ws));
      case StoriesOfWorkspace(ws) =>
        stories := Keep(stories, StoriesOutside(TopicsIn(topics, ProjectsOf(projects, ws))));
      case TopicsOfWorkspace(ws) => topics := Keep(topics, TopicsOutside(ProjectsOf(projects, ws)));
      case ProjectsOfWorkspace(ws) => projects := Keep(projects, ProjectsOutside(ws));
      case WorkspaceRow(ws) => workspaces := Keep(workspaces, OtherWorkspaces(ws));
      case PermissionsOfProject(p) => permissions := Keep(permissions, ProjectsFree({p}));
      case StoriesOfProject(p) => stories := Keep(stories, StoriesOutside(TopicsIn(topics, {p})));
      case TopicsOfProject(p) => topics := Keep(topics, TopicsOutside({p}));
      case ProjectRow(p) => projects := Keep(projects, OtherProjects(p));
      case StoriesOfTopic(id) => stories := Keep(stories, StoriesOutside({id}));
      case TopicRow(id) => topics := Keep(topics, OtherTopics(id));
    }

    /** DeleteWorkspace; `states` are the tables after each statement. */
    method DeleteWorkspace(id: int) returns (ghost states: seq<Tables>)
      modifies this
      ensures Now() == WithoutWorkspace(old(Now()), id)
      ensures |states| == 6 && states[5] == Now()
      ensures ForeignKeysHold(old(Now())) ==> forall i :: 0 <= i < 6 ==> ForeignKeysHold(states[i])
    {
      WorkspaceDeleted(Now(), id);
      WorkspaceDeleteKeepsKeys(Now(), id);
      hide Exec, ForeignKeysHold, WithoutWorkspace;
      Delete(PermissionsOfProjectsIn(id));
      states := [Now()];
      Delete(PermissionsOfWorkspace(id));
      states := states + [Now()];
      Delete(StoriesOfWorkspace(id));
      states := states + [Now()];
      Delete(TopicsOfWorkspace(id));
      states := states + [Now()];
      Delete(ProjectsOfWorkspace(id));
      states := states + [Now()];
      Delete(WorkspaceRow(id));
      states := states + [Now()];
    }

    /** DeleteProject. */
    method DeleteProject(id: int) returns (ghost states: seq<Tables>)
      modifies this
      ensures Now() == WithoutProject(old(Now()), id)
      ensures |states| == 4 && states[3] == Now()
      ensures ForeignKeysHold(old(Now())) ==> forall i :: 0 <= i < 4 ==> ForeignKeysHold(states[i])
    {
      ProjectDeleted(Now(), id);
      ProjectDeleteKeepsKeys(Now(), id);
      hide Exec, ForeignKeysHold, WithoutProject;
      Delete(PermissionsOfProject(id));
      states := [Now()];
      Delete(StoriesOfProject(id));
      states := states + [Now()];
      Delete(TopicsOfProject(id));
      states := states + [Now()];
      Delete(ProjectRow(id));
      states := states + [Now()];
    }

    /** DeleteTopic. */
    method DeleteTopic(id: int) returns (ghost states: seq<Tables>)
      modifies this
      ensures Now() == WithoutTopic(old(Now()), id)
      ensures |states| == 2 && states[1] == Now()
      ensures ForeignKeysHold(old(Now())) ==> forall i :: 0 <= i < 2 ==> ForeignKeysHold(states[i])
    {
      TopicDeleted(Now(), id);
      hide Exec, ForeignKeysHold, WithoutTopic;
      Delete(StoriesOfTopic(id));
      states := [Now()];
      Delete(TopicRow(id));
      states := states + [Now()];
    }
  }
}
