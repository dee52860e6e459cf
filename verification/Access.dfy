/**
 * Who sees what: the permission checks of internal/hierarchy/permissions.go, the
 * scoped tree and the session filter of internal/server/scope.go.
 */
module Access {
  import opened Basics
  import opened Hierarchy

  const LEVEL_WORKSPACE_ADMIN := 100
  const LEVEL_PROJECT_VIEWER := 10
  const LEVEL_WORKSPACE_VIEWER := 5

  // ---- point checks -----------------------------------------------------------------------

  /** The level a user has on a resource; at most one row can match. */
  function LevelOf(permissions: seq<Permission>, user: int, resource: Resource, id: int): (r: Option<int>)
    ensures r.Some? ==> Permission(user, resource, id, r.value) in permissions
    ensures r.None? ==>
              forall q :: q in permissions ==> !(q.userId == user && q.resource == resource && q.resourceId == id)
  {
    if permissions == [] then None
    else if permissions[0].userId == user && permissions[0].resource == resource && permissions[0].resourceId == id
    then Some(permissions[0].level)
    else LevelOf(permissions[1..], user, resource, id)
  }

  /** CheckWorkspacePermission. */
  predicate CheckWorkspace(t: Tables, user: int, ws: int, minLevel: int) {
    var level := LevelOf(t.permissions, user, OnWorkspace, ws);
    level.Some? && level.value >= minLevel
  }

  function FindProject(projects: seq<Project>, id: int): (r: Option<Project>)
    ensures r.Some? ==> r.value in projects && r.value.id == id
    ensures r.None? ==> forall p :: p in projects ==> p.id != id
  {
    if projects == [] then None
    else if projects[0].id == id then Some(projects[0])
    else FindProject(projects[1..], id)
  }

  /** CheckProjectPermission; None is an error, which every caller here takes for a refusal. */
  function CheckProject(t: Tables, user: int, id: int, minLevel: int): Option<bool> {
    var level := LevelOf(t.permissions, user, OnProject, id);
    if level.Some? && level.value >= minLevel then Some(true)
    else
      var project := FindProject(t.projects, id);
      if project.None? then None else Some(CheckWorkspace(t, user, project.value.workspaceId, LEVEL_WORKSPACE_ADMIN))
  }

  predicate IsRowOn(q: Permission, user: int, ws: int) {
    q.userId == user && q.resource.OnWorkspace? && q.resourceId == ws
  }

  predicate HasProjectRow(t: Tables, user: int, p: Project) {
    LevelOf(t.permissions, user, OnProject, p.id).Some?
  }

  /** A workspace lists for a user: a row of its own, or one on some project of it. */
  ghost predicate SeesWorkspace(t: Tables, user: int, ws: int) {
    || LevelOf(t.permissions, user, OnWorkspace, ws).Some?
    || exists p :: p in t.projects && p.workspaceId == ws && HasProjectRow(t, user, p)
  }

  /** GetAuthorizedWorkspaceIDs. */
  method GetAuthorizedWorkspaceIDs(t: Tables, user: int) returns (ids: seq<int>)
    ensures forall ws :: ws in ids <==> SeesWorkspace(t, user, ws)
  {
    ids := [];
    for i := 0 to |t.permissions|
      invariant forall ws :: ws in ids <==>
                  exists j :: 0 <= j < i && IsRowOn(t.permissions[j], user, ws)
    {
      var q := t.permissions[i];
      if q.userId == user && q.resource.OnWorkspace? && q.resourceId !in ids {
        ids := ids + [q.resourceId];
      }
    }
    ghost var direct := ids;
    for i := 0 to |t.projects|
      invariant forall ws :: ws in ids <==>
                  || ws in direct
                  || exists j :: 0 <= j < i && t.projects[j].workspaceId == ws && HasProjectRow(t, user, t.projects[j])
    {
      if HasProjectRow(t, user, t.projects[i]) {
        ids := ids + [t.projects[i].workspaceId];
      }
    }
    forall ws
      ensures ws in ids <==> SeesWorkspace(t, user, ws)
    {
      DirectRow(t, user, ws);
    }
  }

  lemma DirectRow(t: Tables, user: int, ws: int)
    ensures LevelOf(t.permissions, user, OnWorkspace, ws).Some? <==>
              exists j :: 0 <= j < |t.permissions| && IsRowOn(t.permissions[j], user, ws)
  {
  }

  /** Which projects of a workspace a user sees. */
  predicate SeesProject(t: Tables, user: int, p: Project) {
    CheckWorkspace(t, user, p.workspaceId, LEVEL_WORKSPACE_ADMIN) || HasProjectRow(t, user, p)
  }

  predicate SeesIn(t: Tables, user: int, ws: int, p: Project) {
    p.workspaceId == ws && SeesProject(t, user, p)
  }

  /** GetAuthorizedProjectIDs. */
  method GetAuthorizedProjectIDs(t: Tables, user: int, ws: int) returns (ids: seq<int>)
    ensures forall p :: p in t.projects && SeesIn(t, user, ws, p) ==> p.id in ids
    ensures forall id :: id in ids ==> exists p :: p in t.projects && SeesIn(t, user, ws, p) && p.id == id
  {
    ids := [];
    var admin := CheckWorkspace(t, user, ws, LEVEL_WORKSPACE_ADMIN);
    for i := 0 to |t.projects|
      invariant forall j :: 0 <= j < i && SeesIn(t, user, ws, t.projects[j]) ==> t.projects[j].id in ids
      invariant forall id :: id in ids ==>
                  exists j :: 0 <= j < i && SeesIn(t, user, ws, t.projects[j]) && t.projects[j].id == id
    {
      var p := t.projects[i];
      if p.workspaceId == ws && (admin || HasProjectRow(t, user, p)) {
        ids := ids + [p.id];
      }
    }
  }

  // ---- what the checks mean --------------------------------------------------------------------

  predicate SameKey(q: Permission, r: Permission) {
    q.userId == r.userId && q.resource == r.resource && q.resourceId == r.resourceId
  }

  /** The permissions table has one row per user and resource. */
  ghost predicate OneRowEach(t: Tables) {
    forall q, r :: q in t.permissions && r in t.permissions && SameKey(q, r) ==> q == r
  }

  ghost predicate HasRow(t: Tables, user: int, resource: Resource, id: int, minLevel: int) {
    exists q :: q in t.permissions && q.userId == user && q.resource == resource && q.resourceId == id
                && q.level >= minLevel
  }

  /** A workspace needs a row of its own with the level. */
  lemma WorkspaceCheckIff(t: Tables, user: int, ws: int, minLevel: int)
    requires OneRowEach(t)
    ensures CheckWorkspace(t, user, ws, minLevel) <==> HasRow(t, user, OnWorkspace, ws, minLevel)
  {
    var level := LevelOf(t.permissions, user, OnWorkspace, ws);
    assert level.Some? ==> Permission(user, OnWorkspace, ws, level.value) in t.permissions;
  }

  /** A project needs one with the level, or one on its workspace with level 100. */
  lemma ProjectCheckIff(t: Tables, user: int, p: Project, minLevel: int)
    requires OneRowEach(t) && ProjectIdsDiffer(t) && p in t.projects
    ensures CheckProject(t, user, p.id, minLevel) == Some(true) <==>
              HasRow(t, user, OnProject, p.id, minLevel) || HasRow(t, user, OnWorkspace, p.workspaceId, 100)
  {
    var level := LevelOf(t.permissions, user, OnProject, p.id);
    assert level.Some? ==> Permission(user, OnProject, p.id, level.value) in t.permissions;
    WorkspaceCheckIff(t, user, p.workspaceId, 100);
    hide CheckWorkspace;
  }

  /** To see a project any row on it is enough. */
  lemma SeenIff(t: Tables, user: int, p: Project)
    requires OneRowEach(t)
    ensures SeesProject(t, user, p) <==>
              || (exists q :: q in t.permissions && q.userId == user && q.resource == OnProject && q.resourceId == p.id)
              || HasRow(t, user, OnWorkspace, p.workspaceId, 100)
  {
    var level := LevelOf(t.permissions, user, OnProject, p.id);
    assert level.Some? ==> Permission(user, OnProject, p.id, level.value) in t.permissions;
    WorkspaceCheckIff(t, user, p.workspaceId, 100);
    hide CheckWorkspace;
  }

  // ---- the tree -----------------------------------------------------------------------------

  datatype TopicNode = TopicNode(topic: Topic, stories: seq<Story>)
  datatype ProjectNode = ProjectNode(project: Project, topics: seq<TopicNode>)
  datatype WorkspaceNode = WorkspaceNode(workspace: Workspace, projects: seq<ProjectNode>)

  function InWorkspace(ws: int): Project -> bool {
    (p: Project) => p.workspaceId == ws
  }

  function InProject(id: int): Topic -> bool {
    (x: Topic) => x.projectId == id
  }

  function InTopic(id: int): Story -> bool {
    (s: Story) => s.topicId == id
  }

  function TopicNodes(t: Tables, topics: seq<Topic>): seq<TopicNode> {
    seq(|topics|, i requires 0 <= i < |topics| => TopicNode(topics[i], Keep(t.stories, InTopic(topics[i].id))))
  }

  function ProjectNodes(t: Tables, projects: seq<Project>): seq<ProjectNode> {
    seq(|projects|, i requires 0 <= i < |projects| =>
      ProjectNode(projects[i], TopicNodes(t, Keep(t.topics, InProject(projects[i].id)))))
  }

  function WorkspaceNodes(t: Tables, workspaces: seq<Workspace>): seq<WorkspaceNode> {
    seq(|workspaces|, i requires 0 <= i < |workspaces| =>
      WorkspaceNode(workspaces[i], ProjectNodes(t, Keep(t.projects, InWorkspace(workspaces[i].id)))))
  }

  /** GetFullHierarchy. */
  method GetFullHierarchy(t: Tables) returns (tree: seq<WorkspaceNode>)
    ensures tree == WorkspaceNodes(t, t.workspaces)
  {
    tree := [];
    for i := 0 to |t.workspaces|
      invariant tree == WorkspaceNodes(t, t.workspaces)[..i]
    {
      var projects := Keep(t.projects, InWorkspace(t.workspaces[i].id));
      var projectNodes := [];
      for j := 0 to |projects|
        invariant projectNodes == ProjectNodes(t, projects)[..j]
      {
        var topics := Keep(t.topics, InProject(projects[j].id));
        var topicNodes := [];
        for k := 0 to |topics|
          invariant topicNodes == TopicNodes(t, topics)[..k]
        {
          topicNodes := topicNodes + [TopicNode(topics[k], Keep(t.stories, InTopic(topics[k].id)))];
        }
        assert topicNodes == TopicNodes(t, topics);
        projectNodes := projectNodes + [ProjectNode(projects[j], topicNodes)];
      }
      assert projectNodes == ProjectNodes(t, projects);
      tree := tree + [WorkspaceNode(t.workspaces[i], projectNodes)];
    }
  }

  function VisibleProjects(t: Tables, user: int, nodes: seq<ProjectNode>): (r: seq<ProjectNode>)
    ensures forall n :: n in r <==> n in nodes && SeesProject(t, user, n.project)
  {
    if nodes == [] then []
    else
      var n := |nodes| - 1;
      VisibleProjects(t, user, nodes[..n]) + if SeesProject(t, user, nodes[n].project) then [nodes[n]] else []
  }

  function ScopedNode(t: Tables, user: int, node: WorkspaceNode): WorkspaceNode {
    WorkspaceNode(node.workspace, VisibleProjects(t, user, node.projects))
  }

  predicate ShowsNode(t: Tables, user: int, node: WorkspaceNode) {
    CheckWorkspace(t, user, node.workspace.id, LEVEL_WORKSPACE_VIEWER) || VisibleProjects(t, user, node.projects) != []
  }

  /** The part of a tree a user sees. */
  function ScopedNodes(t: Tables, user: int, nodes: seq<WorkspaceNode>): seq<WorkspaceNode> {
    if nodes == [] then []
    else
      var n := |nodes| - 1;
      ScopedNodes(t, user, nodes[..n]) + if ShowsNode(t, user, nodes[n]) then [ScopedNode(t, user, nodes[n])] else []
  }

  function ScopedTree(t: Tables, user: int): seq<WorkspaceNode> {
    if user == 0 then [] else ScopedNodes(t, user, WorkspaceNodes(t, t.workspaces))
  }

  /** The inner loop of scopedHierarchyForUser: the projects of one workspace, by their ids. */
  method FilterProjects(t: Tables, user: int, ws: int, nodes: seq<ProjectNode>) returns (visible: seq<ProjectNode>)
    requires ProjectIdsDiffer(t) && forall n :: n in nodes ==> n.project in t.projects && n.project.workspaceId == ws
    ensures visible == VisibleProjects(t, user, nodes)
  {
    var ids := GetAuthorizedProjectIDs(t, user, ws);
    visible := [];
    for i := 0 to |nodes|
      invariant visible == VisibleProjects(t, user, nodes[..i])
    {
      assert nodes[..i + 1][..i] == nodes[..i];
      if nodes[i].project.id in ids {
        visible := visible + [nodes[i]];
      }
    }
    assert nodes[..|nodes|] == nodes;
  }

  /** scopedHierarchyForUser, on a store that is there. */
  method ScopedHierarchyForUser(t: Tables, user: int) returns (tree: seq<WorkspaceNode>)
    requires ProjectIdsDiffer(t)
    ensures tree == ScopedTree(t, user)
  {
    if user == 0 {
      return [];
    }
    var full := GetFullHierarchy(t);
    var ids := GetAuthorizedWorkspaceIDs(t, user);
    tree := [];
    for i := 0 to |full|
      invariant tree == ScopedNodes(t, user, full[..i])
    {
      ScopedStep(t, user, full, i);
      NodesAreRows(t, i);
      hide ScopedNodes, WorkspaceNodes, SeesWorkspace, CheckWorkspace, VisibleProjects;
      var ws := full[i].workspace.id;
      if ws in ids {
        var projects := FilterProjects(t, user, ws, full[i].projects);
        if CheckWorkspace(t, user, ws, LEVEL_WORKSPACE_VIEWER) || |projects| > 0 {
          tree := tree + [WorkspaceNode(full[i].workspace, projects)];
        }
      } else {
        UnlistedIsHidden(t, user, full[i]);
      }
    }
    assert full[..|full|] == full;
  }

  lemma ScopedStep(t: Tables, user: int, nodes: seq<WorkspaceNode>, i: nat)
    requires i < |nodes|
    ensures ScopedNodes(t, user, nodes[..i + 1])
         == ScopedNodes(t, user, nodes[..i])
            + if ShowsNode(t, user, nodes[i]) then [ScopedNode(t, user, nodes[i])] else []
  {
    assert nodes[..i + 1][..i] == nodes[..i];
  }

  lemma NodesAreRows(t: Tables, i: nat)
    requires i < |t.workspaces|
    ensures var node := WorkspaceNodes(t, t.workspaces)[i];
            && node.workspace == t.workspaces[i]
            && forall n :: n in node.projects ==> n.project in t.projects && n.project.workspaceId == node.workspace.id
  {
    var projects := Keep(t.projects, InWorkspace(t.workspaces[i].id));
    var nodes := ProjectNodes(t, projects);
    forall j | 0 <= j < |nodes|
      ensures nodes[j].project in projects
    {
      assert nodes[j].project == projects[j];
    }
  }

  /** A workspace the user is not listed for has nothing to show. */
  lemma UnlistedIsHidden(t: Tables, user: int, node: WorkspaceNode)
    requires !SeesWorkspace(t, user, node.workspace.id)
    requires forall n :: n in node.projects ==> n.project in t.projects && n.project.workspaceId == node.workspace.id
    ensures !ShowsNode(t, user, node)
  {
    assert forall n :: n in node.projects ==> !SeesProject(t, user, n.project);
    NothingVisible(t, user, node.projects);
  }

  lemma {:induction false} NothingVisible(t: Tables, user: int, nodes: seq<ProjectNode>)
    requires forall n :: n in nodes ==> !SeesProject(t, user, n.project)
    ensures VisibleProjects(t, user, nodes) == []
  {
    hide SeesProject;
    if nodes != [] {
      NothingVisible(t, user, nodes[..|nodes| - 1]);
    }
  }

  // ---- the tree against the point check ----------------------------------------------------------

  ghost predicate ProjectInTree(tree: seq<WorkspaceNode>, id: int) {
    exists n, m :: n in tree && m in n.projects && m.project.id == id
  }

  /** What the scoped tree shows comes from a node of the full tree. */
  lemma {:induction false} ScopedFrom(t: Tables, user: int, nodes: seq<WorkspaceNode>, n: WorkspaceNode)
      returns (i: nat)
    requires n in ScopedNodes(t, user, nodes)
    ensures i < |nodes| && ShowsNode(t, user, nodes[i]) && n == ScopedNode(t, user, nodes[i])
  {
    var last := |nodes| - 1;
    if n in ScopedNodes(t, user, nodes[..last]) {
      i := ScopedFrom(t, user, nodes[..last], n);
    } else {
      i := last;
    }
  }

  /** And every node with something to show is shown. */
  lemma {:induction false} ScopedShows(t: Tables, user: int, nodes: seq<WorkspaceNode>, i: nat)
    requires i < |nodes| && ShowsNode(t, user, nodes[i])
    ensures ScopedNode(t, user, nodes[i]) in ScopedNodes(t, user, nodes)
  {
    if i < |nodes| - 1 {
      ScopedShows(t, user, nodes[..|nodes| - 1], i);
    }
  }

  /** The node of a project in the full tree. */
  lemma ProjectHasNode(t: Tables, p: Project) returns (i: nat, node: ProjectNode)
    requires ForeignKeysHold(t) && p in t.projects
    ensures i < |t.workspaces| && node in WorkspaceNodes(t, t.workspaces)[i].projects && node.project == p
    ensures node.topics == TopicNodes(t, Keep(t.topics, InProject(p.id)))
  {
    var w :| w in t.workspaces && w.id == p.workspaceId;
    i :| 0 <= i < |t.workspaces| && t.workspaces[i] == w;
    var projects := Keep(t.projects, InWorkspace(w.id));
    assert p in projects;
    var j :| 0 <= j < |projects| && projects[j] == p;
    node := ProjectNodes(t, projects)[j];
    assert WorkspaceNodes(t, t.workspaces)[i].projects == ProjectNodes(t, projects);
  }

  /** A project is in the tree exactly when the user sees it. */
  lemma TreeShowsSeenProjects(t: Tables, user: int, p: Project)
    requires ForeignKeysHold(t) && ProjectIdsDiffer(t) && p in t.projects && user != 0
    ensures ProjectInTree(ScopedTree(t, user), p.id) <==> SeesProject(t, user, p)
  {
    var full := WorkspaceNodes(t, t.workspaces);
    var tree := ScopedTree(t, user);
    if ProjectInTree(tree, p.id) {
      var n, m :| n in tree && m in n.projects && m.project.id == p.id;
      var i := ScopedFrom(t, user, full, n);
      NodesAreRows(t, i);
      assert m.project == p;
    }
    if SeesProject(t, user, p) {
      var i, node := ProjectHasNode(t, p);
      hide WorkspaceNodes, SeesProject, ScopedNodes;
      var shown := ScopedNode(t, user, full[i]);
      assert node in shown.projects;
      ScopedShows(t, user, full, i);
      assert shown in tree;
    }
  }

  /** A row below level 10, and no workspace administration (level 100) to make up for it. */
  predicate WeakRow(t: Tables, user: int, p: Project) {
    var level := LevelOf(t.permissions, user, OnProject, p.id);
    level.Some? && level.value < 10 && !CheckWorkspace(t, user, p.workspaceId, 100)
  }

  /** The tree and the point check agree on a project exactly when there is no such row. */
  lemma TreeAgreesWithCheckIff(t: Tables, user: int, p: Project)
    requires ForeignKeysHold(t) && ProjectIdsDiffer(t) && p in t.projects && user != 0
    ensures (ProjectInTree(ScopedTree(t, user), p.id)
             <==> CheckProject(t, user, p.id, LEVEL_PROJECT_VIEWER) == Some(true))
            <==> !WeakRow(t, user, p)
  {
    TreeShowsSeenProjects(t, user, p);
    assert FindProject(t.projects, p.id) == Some(p);
  }

  /** A workspace is in the tree exactly when the user's row on it has level 5 or more, or a project of it is seen. */
  lemma TreeShowsWorkspaces(t: Tables, user: int, w: Workspace)
    requires w in t.workspaces && user != 0
    ensures (exists n :: n in ScopedTree(t, user) && n.workspace == w)
       <==> || CheckWorkspace(t, user, w.id, 5)
            || exists p :: p in t.projects && p.workspaceId == w.id && SeesProject(t, user, p)
  {
    var full := WorkspaceNodes(t, t.workspaces);
    var i :| 0 <= i < |t.workspaces| && t.workspaces[i] == w;
    NodeShown(t, user, i);
    if n :| n in ScopedTree(t, user) && n.workspace == w {
      var j := ScopedFrom(t, user, full, n);
      assert full[j].workspace == t.workspaces[j];
      NodeShown(t, user, j);
    }
    if ShowsNode(t, user, full[i]) {
      ScopedShows(t, user, full, i);
      assert ScopedNode(t, user, full[i]).workspace == w;
    }
  }

  lemma NodeShown(t: Tables, user: int, i: nat)
    requires i < |t.workspaces|
    ensures ShowsNode(t, user, WorkspaceNodes(t, t.workspaces)[i])
       <==> || CheckWorkspace(t, user, t.workspaces[i].id, LEVEL_WORKSPACE_VIEWER)
            || exists p :: p in t.projects && p.workspaceId == t.workspaces[i].id && SeesProject(t, user, p)
  {
    var node := WorkspaceNodes(t, t.workspaces)[i];
    var projects := Keep(t.projects, InWorkspace(t.workspaces[i].id));
    var visible := VisibleProjects(t, user, node.projects);
    NodesAreRows(t, i);
    assert node.projects == ProjectNodes(t, projects);
    hide SeesProject, CheckWorkspace, WorkspaceNodes;
    if visible != [] {
      assert visible[0] in visible;
    }
    if p :| p in t.projects && p.workspaceId == t.workspaces[i].id && SeesProject(t, user, p) {
      assert p in projects;
      var j :| 0 <= j < |projects| && projects[j] == p;
      assert ProjectNodes(t, projects)[j] in visible;
    }
  }

  // ---- sessions -------------------------------------------------------------------------------------

  function StoryByKey(stories: seq<Story>, key: string): (r: Option<Story>)
    ensures r.Some? ==> r.value in stories && r.value.sessionKey == Some(key)
    ensures r.None? ==> forall s :: s in stories ==> s.sessionKey != Some(key)
  {
    if stories == [] then None
    else if stories[0].sessionKey == Some(key) then Some(stories[0])
    else StoryByKey(stories[1..], key)
  }

  function StoryById(stories: seq<Story>, id: int): (r: Option<Story>)
    ensures r.Some? ==> r.value in stories && r.value.id == id
    ensures r.None? ==> forall s :: s in stories ==> s.id != id
  {
    if stories == [] then None else if stories[0].id == id then Some(stories[0]) else StoryById(stories[1..], id)
  }

  function FindTopic(topics: seq<Topic>, id: int): (r: Option<Topic>)
    ensures r.Some? ==> r.value in topics && r.value.id == id
    ensures r.None? ==> forall x :: x in topics ==> x.id != id
  {
    if topics == [] then None else if topics[0].id == id then Some(topics[0]) else FindTopic(topics[1..], id)
  }

  /** The join of a story with its topic. */
  function ProjectOfStory(t: Tables, story: Option<Story>): Option<int> {
    if story.None? then None
    else
      var topic := FindTopic(t.topics, story.value.topicId);
      if topic.None? then None else Some(topic.value.projectId)
  }

  /** What userCanAccessSession looks at in a session. */
  datatype SessionRef = SessionRef(sessionKey: string, storyId: Option<int>)

  /** userCanAccessSession, on a store that is there. */
  predicate CanAccessSession(t: Tables, user: int, sess: Option<SessionRef>) {
    if user == 0 || sess.None? then false
    else
      var direct := ProjectOfStory(t, StoryByKey(t.stories, sess.value.sessionKey));
      var project :=
        if direct.None? && sess.value.storyId.Some?
        then ProjectOfStory(t, StoryById(t.stories, sess.value.storyId.value))
        else direct;
      project.Some? && CheckProject(t, user, project.value, LEVEL_PROJECT_VIEWER) == Some(true)
  }

  /** The story a session belongs to: the one linked to its key, or else the one it names. */
  function ResolvedStory(t: Tables, sess: SessionRef): Option<Story> {
    var linked := StoryByKey(t.stories, sess.sessionKey);
    if linked.None? && sess.storyId.Some? then StoryById(t.stories, sess.storyId.value) else linked
  }

  ghost predicate StoryInTree(tree: seq<WorkspaceNode>, story: Story) {
    exists n, m, x :: n in tree && m in n.projects && x in m.topics && story in x.stories
  }

  /** A story is in the tree exactly when its project is. */
  lemma StoryInTreeIff(t: Tables, user: int, story: Story, topic: Topic, p: Project)
    requires ForeignKeysHold(t) && ProjectIdsDiffer(t) && TopicIdsDiffer(t) && user != 0
    requires story in t.stories && topic in t.topics && p in t.projects
    requires story.topicId == topic.id && topic.projectId == p.id
    ensures StoryInTree(ScopedTree(t, user), story) <==> SeesProject(t, user, p)
  {
    if StoryInTree(ScopedTree(t, user), story) {
      StoryIsSeen(t, user, story, topic, p);
    }
    if SeesProject(t, user, p) {
      SeenStoryIsShown(t, user, story, topic, p);
    }
  }

  lemma StoryIsSeen(t: Tables, user: int, story: Story, topic: Topic, p: Project)
    requires ProjectIdsDiffer(t) && TopicIdsDiffer(t) && user != 0
    requires topic in t.topics && p in t.projects && story.topicId == topic.id && topic.projectId == p.id
    requires StoryInTree(ScopedTree(t, user), story)
    ensures SeesProject(t, user, p)
  {
    var full := WorkspaceNodes(t, t.workspaces);
    var n, m, x :| n in ScopedTree(t, user) && m in n.projects && x in m.topics && story in x.stories;
    var i := ScopedFrom(t, user, full, n);
    NodesAreRows(t, i);
    hide WorkspaceNodes, SeesProject, ScopedNodes, ShowsNode;
    assert m in full[i].projects;
    NodeHoldsStory(t, i, m, x, story, topic);
    assert m.project == p;
  }

  lemma SeenStoryIsShown(t: Tables, user: int, story: Story, topic: Topic, p: Project)
    requires ForeignKeysHold(t) && user != 0 && SeesProject(t, user, p)
    requires story in t.stories && topic in t.topics && p in t.projects
    requires story.topicId == topic.id && topic.projectId == p.id
    ensures StoryInTree(ScopedTree(t, user), story)
  {
    var full := WorkspaceNodes(t, t.workspaces);
    var i, node := ProjectHasNode(t, p);
    hide WorkspaceNodes, SeesProject, ScopedNodes;
    var shown := ScopedNode(t, user, full[i]);
    assert node in shown.projects;
    ScopedShows(t, user, full, i);
    var topics := Keep(t.topics, InProject(p.id));
    assert topic in topics;
    var k :| 0 <= k < |topics| && topics[k] == topic;
    var x := TopicNodes(t, topics)[k];
    assert x in node.topics && story in x.stories;
    assert shown in ScopedTree(t, user);
  }

  /** The story of a node belongs to the project of the node. */
  lemma NodeHoldsStory(t: Tables, i: nat, m: ProjectNode, x: TopicNode, story: Story, topic: Topic)
    requires i < |t.workspaces| && m in WorkspaceNodes(t, t.workspaces)[i].projects
    requires x in m.topics && story in x.stories
    requires TopicIdsDiffer(t) && topic in t.topics && story.topicId == topic.id
    ensures m.project.id == topic.projectId
  {
    var projects := Keep(t.projects, InWorkspace(t.workspaces[i].id));
    var j :| 0 <= j < |projects| && ProjectNodes(t, projects)[j] == m;
    var topics := Keep(t.topics, InProject(projects[j].id));
    assert m.topics == TopicNodes(t, topics);
    var k :| 0 <= k < |topics| && TopicNodes(t, topics)[k] == x;
    assert topics[k] in topics && story.topicId == topics[k].id;
  }

  /** The project of the story a session resolves to. */
  function ResolvedProject(t: Tables, sess: SessionRef): Option<Project> {
    var project := ProjectOfStory(t, ResolvedStory(t, sess));
    if project.None? then None else FindProject(t.projects, project.value)
  }

  predicate WeakForSession(t: Tables, user: int, sess: SessionRef) {
    user != 0 && ResolvedProject(t, sess).Some? && WeakRow(t, user, ResolvedProject(t, sess).value)
  }

  /** Does the story a session resolves to occur in the user's tree? */
  ghost predicate SessionInTree(t: Tables, user: int, sess: SessionRef) {
    user != 0 && ResolvedStory(t, sess).Some? && StoryInTree(ScopedTree(t, user), ResolvedStory(t, sess).value)
  }

  /**
   * A session is accessible exactly when the story it resolves to occurs in the
   * user's tree, unless the user's row on that story's project is too weak.
   */
  lemma SessionAccessIffStoryInTree(t: Tables, user: int, sess: SessionRef)
    requires ForeignKeysHold(t) && ProjectIdsDiffer(t) && TopicIdsDiffer(t)
    ensures (CanAccessSession(t, user, Some(sess)) <==> SessionInTree(t, user, sess))
            <==> !WeakForSession(t, user, sess)
  {
    var story := ResolvedStory(t, sess);
    if user != 0 && story.Some? {
      var topic := FindTopic(t.topics, story.value.topicId);
      assert topic.Some? by {
        assert story.value.topicId in TopicIds(t);
      }
      var project := FindProject(t.projects, topic.value.projectId);
      assert project.Some? by {
        assert topic.value.projectId in ProjectIds(t);
      }
      LinkedHasTopic(t, sess);
      hide StoryInTree, ScopedTree;
      StoryInTreeIff(t, user, story.value, topic.value, project.value);
    }
  }

  /** With valid foreign keys the key lookup fails only when no story has the key. */
  lemma LinkedHasTopic(t: Tables, sess: SessionRef)
    requires ForeignKeysHold(t)
    ensures StoryByKey(t.stories, sess.sessionKey).Some? ==>
              ProjectOfStory(t, StoryByKey(t.stories, sess.sessionKey)).Some?
  {
    var linked := StoryByKey(t.stories, sess.sessionKey);
    if linked.Some? {
      assert linked.value.topicId in TopicIds(t);
    }
  }

  /** The accessible sessions, in order. */
  function Accessible(t: Tables, user: int, sessions: seq<SessionRef>): (r: seq<SessionRef>)
    ensures forall s :: s in r <==> s in sessions && CanAccessSession(t, user, Some(s))
  {
    hide CanAccessSession;
    if sessions == [] then []
    else
      var n := |sessions| - 1;
      Accessible(t, user, sessions[..n]) + if CanAccessSession(t, user, Some(sessions[n])) then [sessions[n]] else []
  }

  /** filterSessionsForUser. */
  method FilterSessionsForUser(t: Tables, user: int, sessions: seq<SessionRef>) returns (filtered: seq<SessionRef>)
    ensures filtered == Accessible(t, user, sessions)
  {
    filtered := [];
    for i := 0 to |sessions|
      invariant filtered == Accessible(t, user, sessions[..i])
    {
      assert sessions[..i + 1][..i] == sessions[..i];
      if CanAccessSession(t, user, Some(sessions[i])) {
        filtered := filtered + [sessions[i]];
      }
    }
    assert sessions[..|sessions|] == sessions;
  }
}
