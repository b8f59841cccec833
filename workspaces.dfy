/** Shared workspaces: members with roles, the role-to-action table that
    gates every operation, dashboards and their public links, and the store
    the workspaces are saved in (one record per workspace id). */
module Workspaces {
  import opened Wrappers
  import opened Text

  /** A member entry: who, with which role, granted when and by whom. */
  datatype Permission = Permission(userId: string, role: string, grantedAt: string, grantedBy: string)

  /** Tile configuration and workspace settings: free-form key/value maps. */
  type Settings = map<string, string>

  datatype Dashboard = Dashboard(
    id: string,
    name: string,
    description: string,
    isPublic: bool,
    publicUrl: string,
    embedCode: string,
    createdAt: string,
    updatedAt: string,
    layout: Settings)

  datatype Workspace = Workspace(
    id: string,
    name: string,
    description: string,
    owner: string,
    permissions: seq<Permission>,
    dashboards: seq<Dashboard>,
    datasets: seq<string>,
    createdAt: string,
    updatedAt: string,
    settings: Settings)

  /** Why an operation was refused; one constructor per error message. */
  datatype Refusal =
    | WorkspaceNotFound
    | NotAllowedToAdd
    | AlreadyMember
    | OwnerNotRemovable
    | NotAllowedToRemove
    | OnlyOwnerDeletes
    | NotAllowed
    | NotAllowedToPublish
    | DashboardNotFound

  datatype Status = Success | Refused(reason: Refusal)

  datatype Outcome<T> = Done(value: T) | Failed(reason: Refusal)

  // ---------------------------------------------------------------------
  // Roles
  // ---------------------------------------------------------------------

  const Roles: set<string> := {"owner", "admin", "editor", "viewer"}

  /** The actions a role grants; an unknown role grants none. */
  function Actions(role: string): (r: seq<string>)
    ensures "manage" in r <==> role == "owner"
    ensures "read" in r <==> role in Roles
    ensures "write" in r <==> role in {"owner", "admin", "editor"}
    ensures "share" in r <==> role in {"owner", "admin"}
    ensures "delete" in r <==> role in {"owner", "admin"}
    ensures role !in Roles ==> r == []
  {
    if role == "owner" then ["read", "write", "delete", "share", "manage"]
    else if role == "admin" then ["read", "write", "delete", "share"]
    else if role == "editor" then ["read", "write"]
    else if role == "viewer" then ["read"]
    else []
  }

  /** Each role grants everything the role below it grants. */
  lemma RolesNested(action: string)
    ensures action in Actions("viewer") ==> action in Actions("editor")
    ensures action in Actions("editor") ==> action in Actions("admin")
    ensures action in Actions("admin") ==> action in Actions("owner")
  {
  }

  /** The two roles that may add and remove members. */
  predicate Manager(role: string) {
    role == "owner" || role == "admin"
  }

  // ---------------------------------------------------------------------
  // Member lists
  // ---------------------------------------------------------------------

  predicate HasEntry(perms: seq<Permission>, user: string) {
    exists i :: 0 <= i < |perms| && perms[i].userId == user
  }

  /** `i` is the position of the first entry for `user`. */
  predicate FirstEntry(perms: seq<Permission>, user: string, i: int) {
    0 <= i < |perms| && perms[i].userId == user && forall j :: 0 <= j < i ==> perms[j].userId != user
  }

  /** Some entry for `user` (not necessarily the first) has a manager role. */
  predicate Manages(perms: seq<Permission>, user: string) {
    exists i :: 0 <= i < |perms| && perms[i].userId == user && Manager(perms[i].role)
  }

  /** No user has two entries. */
  predicate UniqueMembers(perms: seq<Permission>) {
    forall i, j :: 0 <= i < j < |perms| ==> perms[i].userId != perms[j].userId
  }

  /** The role of the first entry for `user`. */
  function RoleOf(perms: seq<Permission>, user: string): (r: Option<string>)
    ensures r.None? <==> !HasEntry(perms, user)
    ensures r.Some? ==> exists i :: FirstEntry(perms, user, i) && perms[i].role == r.value
  {
    if perms == [] then None
    else if perms[0].userId == user then
      assert FirstEntry(perms, user, 0);
      Some(perms[0].role)
    else
      var r := RoleOf(perms[1..], user);
      assert HasEntry(perms, user) <==> HasEntry(perms[1..], user) by {
        if HasEntry(perms, user) {
          var i :| 0 <= i < |perms| && perms[i].userId == user;
          assert perms[1..][i - 1].userId == user;
        }
        if HasEntry(perms[1..], user) {
          var i :| 0 <= i < |perms[1..]| && perms[1..][i].userId == user;
          assert perms[i + 1].userId == user;
        }
      }
      assert r.Some? ==> exists i :: FirstEntry(perms, user, i) && perms[i].role == r.value by {
        if r.Some? {
          var i :| FirstEntry(perms[1..], user, i) && perms[1..][i].role == r.value;
          assert FirstEntry(perms, user, i + 1);
        }
      }
      r
  }

  /** There is only one first entry. */
  lemma FirstEntryUnique(perms: seq<Permission>, user: string, i: int, j: int)
    requires FirstEntry(perms, user, i) && FirstEntry(perms, user, j)
    ensures i == j
  {
  }

  /** Whether the first entry for `user` grants `action`. */
  function Permitted(perms: seq<Permission>, user: string, action: string): (b: bool)
    ensures b <==> exists i :: FirstEntry(perms, user, i) && action in Actions(perms[i].role)
  {
    if perms == [] then false
    else if perms[0].userId == user then
      assert FirstEntry(perms, user, 0);
      action in Actions(perms[0].role)
    else
      var b := Permitted(perms[1..], user, action);
      assert b ==> exists i :: FirstEntry(perms, user, i) && action in Actions(perms[i].role) by {
        if b {
          var i :| FirstEntry(perms[1..], user, i) && action in Actions(perms[1..][i].role);
          assert FirstEntry(perms, user, i + 1);
        }
      }
      assert (exists i :: FirstEntry(perms, user, i) && action in Actions(perms[i].role)) ==> b by {
        if exists i :: FirstEntry(perms, user, i) && action in Actions(perms[i].role) {
          var i :| FirstEntry(perms, user, i) && action in Actions(perms[i].role);
          assert FirstEntry(perms[1..], user, i - 1);
        }
      }
      b
  }

  /** The permission check agrees with the role lookup: a user is permitted an
      action exactly when they have a role and that role grants the action. */
  lemma PermittedByRole(perms: seq<Permission>, user: string, action: string)
    ensures Permitted(perms, user, action) <==> RoleOf(perms, user).Some? && action in Actions(RoleOf(perms, user).value)
  {
    if RoleOf(perms, user).Some? {
      var i :| FirstEntry(perms, user, i) && perms[i].role == RoleOf(perms, user).value;
      if Permitted(perms, user, action) {
        var j :| FirstEntry(perms, user, j) && action in Actions(perms[j].role);
        FirstEntryUnique(perms, user, i, j);
      }
    }
  }

  /** With one entry per user, the manager check (any entry) and the role
      lookup (first entry) agree. */
  lemma ManagesByRole(perms: seq<Permission>, user: string)
    requires UniqueMembers(perms)
    ensures Manages(perms, user) <==> RoleOf(perms, user).Some? && Manager(RoleOf(perms, user).value)
  {
    if Manages(perms, user) {
      var i :| 0 <= i < |perms| && perms[i].userId == user && Manager(perms[i].role);
      assert FirstEntry(perms, user, i);
      var k :| FirstEntry(perms, user, k) && perms[k].role == RoleOf(perms, user).value;
      FirstEntryUnique(perms, user, i, k);
    }
    if RoleOf(perms, user).Some? && Manager(RoleOf(perms, user).value) {
      var k :| FirstEntry(perms, user, k) && perms[k].role == RoleOf(perms, user).value;
      assert perms[k].userId == user && Manager(perms[k].role);
    }
  }

  /** The member list with every entry of `user` removed, others in order. */
  function Without(perms: seq<Permission>, user: string): (r: seq<Permission>)
    ensures |r| <= |perms|
    ensures forall p :: p in r <==> p in perms && p.userId != user
  {
    if perms == [] then []
    else
      var rest := Without(perms[1..], user);
      assert forall p :: p in perms <==> p == perms[0] || p in perms[1..];
      if perms[0].userId == user then rest else [perms[0]] + rest
  }

  lemma {:induction false} WithoutConcat(a: seq<Permission>, b: seq<Permission>, user: string)
    ensures Without(a + b, user) == Without(a, user) + Without(b, user)
    decreases |a|
  {
    if a == [] {
      assert a + b == b;
    } else {
      assert (a + b)[0] == a[0];
      assert (a + b)[1..] == a[1..] + b;
      WithoutConcat(a[1..], b, user);
    }
  }

  lemma HasEntryMembers(perms: seq<Permission>, user: string)
    ensures HasEntry(perms, user) <==> exists p :: p in perms && p.userId == user
  {
    if HasEntry(perms, user) {
      var i :| 0 <= i < |perms| && perms[i].userId == user;
      assert perms[i] in perms;
    }
  }

  /** After removal `user` has no entry, and every other user keeps the role
      of their first entry. */
  lemma {:induction false} WithoutKeepsRoles(perms: seq<Permission>, user: string, other: string)
    requires other != user
    ensures RoleOf(Without(perms, user), other) == RoleOf(perms, other)
    ensures !HasEntry(Without(perms, user), user)
  {
    HasEntryMembers(Without(perms, user), user);
    if perms != [] {
      WithoutKeepsRoles(perms[1..], user, other);
      if perms[0].userId != user {
        var r := [perms[0]] + Without(perms[1..], user);
        assert r[1..] == Without(perms[1..], user);
      }
    }
  }

  lemma UniqueCons(p: Permission, rest: seq<Permission>)
    ensures UniqueMembers([p] + rest) <==> UniqueMembers(rest) && forall q :: q in rest ==> q.userId != p.userId
  {
    var s := [p] + rest;
    assert forall i :: 0 <= i < |rest| ==> s[i + 1] == rest[i];
    if UniqueMembers(s) {
      forall q | q in rest ensures q.userId != p.userId {
        var i :| 0 <= i < |rest| && rest[i] == q;
        assert s[0].userId != s[i + 1].userId;
      }
    }
  }

  lemma {:induction false} WithoutKeepsUnique(perms: seq<Permission>, user: string)
    requires UniqueMembers(perms)
    ensures UniqueMembers(Without(perms, user))
  {
    if perms != [] {
      assert perms == [perms[0]] + perms[1..];
      UniqueCons(perms[0], perms[1..]);
      WithoutKeepsUnique(perms[1..], user);
      if perms[0].userId != user {
        UniqueCons(perms[0], Without(perms[1..], user));
      }
    }
  }

  /** Appending an entry for a user who has none keeps everybody else's role
      and gives that user the new entry's role. */
  lemma AppendRoles(perms: seq<Permission>, p: Permission, other: string)
    requires !HasEntry(perms, p.userId)
    ensures RoleOf(perms + [p], p.userId) == Some(p.role)
    ensures HasEntry(perms, other) ==> RoleOf(perms + [p], other) == RoleOf(perms, other)
  {
    var s := perms + [p];
    assert FirstEntry(s, p.userId, |perms|);
    var i :| FirstEntry(s, p.userId, i) && s[i].role == RoleOf(s, p.userId).value;
    FirstEntryUnique(s, p.userId, i, |perms|);
    if HasEntry(perms, other) {
      assert RoleOf(perms, other).Some?;
      assert forall j :: 0 <= j < |perms| ==> s[j] == perms[j];
      var k :| FirstEntry(perms, other, k) && perms[k].role == RoleOf(perms, other).value;
      assert FirstEntry(s, other, k);
      var k' :| FirstEntry(s, other, k') && s[k'].role == RoleOf(s, other).value;
      FirstEntryUnique(s, other, k, k');
    }
  }

  lemma AppendUnique(perms: seq<Permission>, p: Permission)
    requires UniqueMembers(perms) && !HasEntry(perms, p.userId)
    ensures UniqueMembers(perms + [p])
  {
    var s := perms + [p];
    forall i, j | 0 <= i < j < |s| ensures s[i].userId != s[j].userId {
      if j == |perms| {
        assert s[i] == perms[i];
      }
    }
  }

  // ---------------------------------------------------------------------
  // Workspaces
  // ---------------------------------------------------------------------

  /** The owner holds the owner role and no user has two entries. The store
      keeps every workspace in this shape. */
  predicate WellFormed(ws: Workspace) {
    UniqueMembers(ws.permissions) && RoleOf(ws.permissions, ws.owner) == Some("owner")
  }

  /** A new workspace: the owner as its only member, no dashboards, no
      datasets. */
  function NewWorkspace(id: string, name: string, description: string, owner: string, now: string): (ws: Workspace)
    ensures WellFormed(ws)
    ensures ws.permissions == [Permission(owner, "owner", now, "")]
    ensures ws.dashboards == [] && ws.datasets == []
    ensures Permitted(ws.permissions, owner, "manage")
  {
    var ws := Workspace(id, name, description, owner, [Permission(owner, "owner", now, "")], [], [], now, now, map[]);
    assert FirstEntry(ws.permissions, owner, 0);
    ws
  }

  function WithMember(ws: Workspace, p: Permission): Workspace {
    ws.(permissions := ws.permissions + [p])
  }

  function WithoutMember(ws: Workspace, user: string): Workspace {
    ws.(permissions := Without(ws.permissions, user))
  }

  /** Adding a user who is not yet a member keeps the workspace well formed,
      gives the user the granted role, and changes nobody else's role. */
  lemma AddKeepsWellFormed(ws: Workspace, p: Permission, other: string)
    requires WellFormed(ws) && !HasEntry(ws.permissions, p.userId)
    ensures WellFormed(WithMember(ws, p))
    ensures RoleOf(WithMember(ws, p).permissions, p.userId) == Some(p.role)
    ensures other != p.userId ==> RoleOf(WithMember(ws, p).permissions, other) == RoleOf(ws.permissions, other)
  {
    AppendUnique(ws.permissions, p);
    AppendRoles(ws.permissions, p, ws.owner);
    AppendRoles(ws.permissions, p, other);
    if other != p.userId && !HasEntry(ws.permissions, other) {
      HasEntryMembers(ws.permissions, other);
      HasEntryMembers(ws.permissions + [p], other);
    }
  }

  /** Removing anyone but the owner keeps the workspace well formed, leaves
      the user without an entry, and changes nobody else's role. */
  lemma RemoveKeepsWellFormed(ws: Workspace, user: string, other: string)
    requires WellFormed(ws) && user != ws.owner
    ensures WellFormed(WithoutMember(ws, user))
    ensures !HasEntry(WithoutMember(ws, user).permissions, user)
    ensures other != user ==> RoleOf(WithoutMember(ws, user).permissions, other) == RoleOf(ws.permissions, other)
  {
    WithoutKeepsUnique(ws.permissions, user);
    WithoutKeepsRoles(ws.permissions, user, ws.owner);
    if other != user {
      WithoutKeepsRoles(ws.permissions, user, other);
    }
  }

  /** An admin may grant the owner role: the added user then holds "manage". */
  lemma AdminCanGrantOwner(ws: Workspace, user: string, grantedBy: string, now: string)
    requires WellFormed(ws) && !HasEntry(ws.permissions, user)
    ensures Permitted(WithMember(ws, Permission(user, "owner", now, grantedBy)).permissions, user, "manage")
  {
    var p := Permission(user, "owner", now, grantedBy);
    AddKeepsWellFormed(ws, p, user);
    PermittedByRole(WithMember(ws, p).permissions, user, "manage");
  }

  /** Whether `user` may see a workspace in the listing: anyone when no user
      is given, otherwise the owner or a member. */
  predicate CanSee(ws: Workspace, user: Option<string>) {
    user.None? || ws.owner == user.value || HasEntry(ws.permissions, user.value)
  }

  datatype WorkspaceSummary = WorkspaceSummary(
    id: string, name: string, description: string, owner: string, dashboardsCount: nat, updatedAt: string)

  function Summary(ws: Workspace): WorkspaceSummary {
    WorkspaceSummary(ws.id, ws.name, ws.description, ws.owner, |ws.dashboards|, ws.updatedAt)
  }

  // ---------------------------------------------------------------------
  // Dashboards
  // ---------------------------------------------------------------------

  /** A new dashboard: private, without links, with an empty layout. */
  function NewDashboard(id: string, name: string, description: string, now: string): (d: Dashboard)
    ensures !d.isPublic && d.publicUrl == "" && d.embedCode == ""
    ensures d.id == id && d.name == name && d.description == description
  {
    Dashboard(id, name, description, false, "", "", now, now, map[])
  }

  const PublicPath: string := "/public/dashboard/"

  /** The iframe snippet that embeds the dashboard at `url`. */
  function EmbedCode(url: string): (code: string)
    ensures Contains(code, url)
  {
    var prefix := "<iframe src=\"https://analystica.app";
    var code := prefix + url + "\" width=\"100%\" height=\"600\" frameborder=\"0\"></iframe>";
    assert code[|prefix|..|prefix| + |url|] == url;
    assert OccursAt(code, url, |prefix|);
    code
  }

  /** The dashboard after a publish request: public with a link built from
      `token`, or private with both links cleared. */
  function Publish(d: Dashboard, isPublic: bool, token: string, now: string): (r: Dashboard)
    ensures r.isPublic == isPublic && r.updatedAt == now
    ensures isPublic ==> StartsWith(r.publicUrl, PublicPath) && r.embedCode != [] && Contains(r.embedCode, r.publicUrl)
    ensures !isPublic ==> r.publicUrl == [] && r.embedCode == []
    ensures r.id == d.id && r.name == d.name && r.description == d.description
    ensures r.createdAt == d.createdAt && r.layout == d.layout
  {
    if isPublic then
      var url := PublicPath + token;
      assert url[..|PublicPath|] == PublicPath;
      d.(isPublic := true, publicUrl := url, embedCode := EmbedCode(url), updatedAt := now)
    else
      d.(isPublic := false, publicUrl := "", embedCode := "", updatedAt := now)
  }

  /** The public lookup's test: a non-empty link containing `token`, on a
      dashboard that is public. */
  predicate PublicMatch(d: Dashboard, token: string) {
    d.publicUrl != [] && Contains(d.publicUrl, token) && d.isPublic
  }

  /** Round trip: a dashboard published with `token` is found by `token`. */
  lemma PublishedIsFound(d: Dashboard, token: string, now: string)
    ensures PublicMatch(Publish(d, true, token, now), token)
  {
    var url := PublicPath + token;
    assert url[|PublicPath|..|PublicPath| + |token|] == token;
    assert OccursAt(url, token, |PublicPath|);
  }

  /** Unpublishing hides a dashboard from every token. */
  lemma UnpublishedIsHidden(d: Dashboard, token: string, other: string, now: string)
    ensures !PublicMatch(Publish(d, false, token, now), other)
  {
  }

  /** The lookup tests containment, not equality: any piece of a public link,
      the empty text included, finds the dashboard. */
  lemma AnyPieceFindsPublished(d: Dashboard, token: string, now: string, k: nat, n: nat)
    requires k + n <= |PublicPath + token|
    ensures PublicMatch(Publish(d, true, token, now), (PublicPath + token)[k..k + n])
  {
    assert OccursAt(PublicPath + token, (PublicPath + token)[k..k + n], k);
  }

  /** Position of the first dashboard with id `id`, or `|ds|` if none. */
  function DashboardIndex(ds: seq<Dashboard>, id: string): (k: nat)
    ensures k <= |ds|
    ensures k < |ds| ==> ds[k].id == id
    ensures forall j :: 0 <= j < k ==> ds[j].id != id
  {
    if ds == [] then 0
    else if ds[0].id == id then 0
    else 1 + DashboardIndex(ds[1..], id)
  }

  /** The scan for a dashboard by id: the position of the first match, or
      `|ds|` when there is none. */
  method FindDashboard(ds: seq<Dashboard>, id: string) returns (k: nat)
    ensures k == DashboardIndex(ds, id)
  {
    k := 0;
    while k < |ds| && ds[k].id != id
      invariant 0 <= k <= |ds|
      invariant forall j :: 0 <= j < k ==> ds[j].id != id
    {
      k := k + 1;
    }
    DashboardIndexUnique(ds, id, k);
  }

  lemma {:induction false} DashboardIndexUnique(ds: seq<Dashboard>, id: string, k: nat)
    requires k <= |ds|
    requires k < |ds| ==> ds[k].id == id
    requires forall j :: 0 <= j < k ==> ds[j].id != id
    ensures k == DashboardIndex(ds, id)
  {
    if ds != [] && ds[0].id != id {
      assert forall j :: 0 <= j < k - 1 ==> ds[1..][j].id != id;
      DashboardIndexUnique(ds[1..], id, k - 1);
    }
  }

  datatype Links = Links(publicUrl: string, embedCode: string)

  datatype PublicView = PublicView(id: string, name: string, description: string, layout: Settings, workspaceName: string)

  function View(d: Dashboard, ws: Workspace): PublicView {
    PublicView(d.id, d.name, d.description, d.layout, ws.name)
  }

  /** Position of the first dashboard matching `token`, or `|ds|` if none. */
  function FirstPublic(ds: seq<Dashboard>, token: string): (k: nat)
    ensures k <= |ds|
    ensures k < |ds| ==> PublicMatch(ds[k], token)
    ensures forall j :: 0 <= j < k ==> !PublicMatch(ds[j], token)
  {
    if ds == [] then 0
    else if PublicMatch(ds[0], token) then 0
    else 1 + FirstPublic(ds[1..], token)
  }

  /** The scan of one workspace's dashboards in list order, with the two
      nested tests of the lookup: the position of the first match, or `|ds|`. */
  method FindPublic(ds: seq<Dashboard>, token: string) returns (k: nat)
    ensures k == FirstPublic(ds, token)
  {
    k := 0;
    while k < |ds|
      invariant 0 <= k <= |ds|
      invariant forall j :: 0 <= j < k ==> !PublicMatch(ds[j], token)
    {
      var dashboard := ds[k];
      if dashboard.publicUrl != [] && Contains(dashboard.publicUrl, token) {
        if dashboard.isPublic {
          FirstPublicUnique(ds, token, k);
          return;
        }
      }
      k := k + 1;
    }
    FirstPublicUnique(ds, token, k);
  }

  lemma {:induction false} FirstPublicUnique(ds: seq<Dashboard>, token: string, k: nat)
    requires k <= |ds|
    requires k < |ds| ==> PublicMatch(ds[k], token)
    requires forall j :: 0 <= j < k ==> !PublicMatch(ds[j], token)
    ensures k == FirstPublic(ds, token)
  {
    if ds != [] && !PublicMatch(ds[0], token) {
      assert forall j :: 0 <= j < k - 1 ==> !PublicMatch(ds[1..][j], token);
      FirstPublicUnique(ds[1..], token, k - 1);
    }
  }

  /** `v` is the view of the first matching dashboard of some stored workspace. */
  predicate Published(workspaces: map<string, Workspace>, token: string, v: PublicView) {
    exists key :: key in workspaces && FirstPublic(workspaces[key].dashboards, token) < |workspaces[key].dashboards|
      && v == View(workspaces[key].dashboards[FirstPublic(workspaces[key].dashboards, token)], workspaces[key])
  }

  /** The keys of the stored workspaces `user` may see. */
  function VisibleKeys(workspaces: map<string, Workspace>, user: Option<string>): set<string> {
    set key | key in workspaces && CanSee(workspaces[key], user)
  }

  /** Taking one key off the pending set adds it to the visible keys already
      seen exactly when it is visible. */
  lemma VisibleStep(workspaces: map<string, Workspace>, user: Option<string>, pending: set<string>, key: string)
    requires key in pending && key in workspaces
    ensures VisibleKeys(workspaces, user) - (pending - {key})
            == (VisibleKeys(workspaces, user) - pending) + (if CanSee(workspaces[key], user) then {key} else {})
  {
  }

  /** The listing's loop over the stored workspaces, in the store's own
      order: one summary per workspace `user` may see. */
  method VisibleSummaries(store: map<string, Workspace>, user: Option<string>)
    returns (summaries: seq<WorkspaceSummary>)
    ensures forall s :: s in summaries <==> exists key :: key in store && CanSee(store[key], user)
                                                          && s == Summary(store[key])
    ensures |summaries| == |VisibleKeys(store, user)|
  {
    summaries := [];
    var pending := store.Keys;
    ghost var listed: set<string> := {};
    while pending != {}
      invariant Listing(store, user, pending, listed, summaries)
      decreases pending
    {
      var key :| key in pending;
      var hasAccess := HasAccess(store[key], user);
      ListingStep(store, user, pending, listed, summaries, key);
      if hasAccess {
        summaries := summaries + [Summary(store[key])];
        listed := listed + {key};
      }
      pending := pending - {key};
    }
    ListingDone(store, user, listed, summaries);
  }

  /** The listing loop's invariant: `listed` holds the visible keys already
      taken off `pending`, and `summaries` holds one summary for each. */
  ghost predicate Listing(store: map<string, Workspace>, user: Option<string>, pending: set<string>,
                          listed: set<string>, summaries: seq<WorkspaceSummary>)
  {
    && pending <= store.Keys
    && listed == VisibleKeys(store, user) - pending
    && (forall s :: s in summaries <==> exists key :: key in listed && key in store && s == Summary(store[key]))
    && |summaries| == |listed|
  }

  /** Taking one key off `pending` keeps the invariant, with its summary
      appended exactly when the workspace is visible. */
  lemma ListingStep(store: map<string, Workspace>, user: Option<string>, pending: set<string>,
                    listed: set<string>, summaries: seq<WorkspaceSummary>, key: string)
    requires Listing(store, user, pending, listed, summaries) && key in pending
    ensures CanSee(store[key], user) ==>
              Listing(store, user, pending - {key}, listed + {key}, summaries + [Summary(store[key])])
    ensures !CanSee(store[key], user) ==> Listing(store, user, pending - {key}, listed, summaries)
  {
    VisibleStep(store, user, pending, key);
    if CanSee(store[key], user) {
      assert key !in listed;
      ListedStep(store, listed, summaries, key);
    }
  }

  /** With nothing pending, the invariant is the listing's contract. */
  lemma ListingDone(store: map<string, Workspace>, user: Option<string>, listed: set<string>,
                    summaries: seq<WorkspaceSummary>)
    requires Listing(store, user, {}, listed, summaries)
    ensures forall s :: s in summaries <==> exists key :: key in store && CanSee(store[key], user)
                                                          && s == Summary(store[key])
    ensures |summaries| == |VisibleKeys(store, user)|
  {
    assert listed == VisibleKeys(store, user);
  }

  /** Appending one more workspace's summary keeps the summaries those of the
      listed keys. */
  lemma ListedStep(store: map<string, Workspace>, listed: set<string>, summaries: seq<WorkspaceSummary>, key: string)
    requires key in store
    requires forall s :: s in summaries <==> exists k :: k in listed && k in store && s == Summary(store[k])
    ensures forall s :: s in summaries + [Summary(store[key])] <==>
              exists k :: k in listed + {key} && k in store && s == Summary(store[k])
  {
  }

  /** The listing's access test: anyone when no user is given, the owner, or
      a user found by scanning the entries. */
  method HasAccess(ws: Workspace, user: Option<string>) returns (b: bool)
    ensures b == CanSee(ws, user)
  {
    b := user.None? || ws.owner == user.value;
    if !b {
      var i := 0;
      while i < |ws.permissions|
        invariant 0 <= i <= |ws.permissions|
        invariant forall j :: 0 <= j < i ==> ws.permissions[j].userId != user.value
      {
        if ws.permissions[i].userId == user.value {
          b := true;
          break;
        }
        i := i + 1;
      }
    }
  }

  // ---------------------------------------------------------------------
  // The store
  // ---------------------------------------------------------------------

  /** The saved workspaces, one per id. Saving writes a workspace under its
      own id with `updatedAt` set to the time of the save. */
  class WorkspaceStore {
    var workspaces: map<string, Workspace>

    ghost predicate Valid()
      reads this
    {
      forall key :: key in workspaces ==> workspaces[key].id == key && WellFormed(workspaces[key])
    }

    constructor()
      ensures workspaces == map[]
      ensures Valid()
    {
      workspaces := map[];
    }

    method Save(ws: Workspace, now: string)
      modifies this
      ensures workspaces == old(workspaces)[ws.id := ws.(updatedAt := now)]
      ensures old(Valid()) && WellFormed(ws) ==> Valid()
    {
      workspaces := workspaces[ws.id := ws.(updatedAt := now)];
    }

    /** Creates and saves a workspace; `id` stands for the first eight
        characters of a fresh UUID. */
    method CreateWorkspace(id: string, name: string, owner: string, description: string, now: string)
      returns (ws: Workspace)
      modifies this
      ensures ws == NewWorkspace(id, name, description, owner, now)
      ensures workspaces == old(workspaces)[id := ws]
      ensures old(Valid()) ==> Valid()
    {
      ws := NewWorkspace(id, name, description, owner, now);
      Save(ws, now);
    }

    /** The workspaces `user` may see (all of them when no user is given), in
        the store's own order. */
    method ListWorkspaces(user: Option<string>) returns (summaries: seq<WorkspaceSummary>)
      ensures forall s :: s in summaries <==> exists key :: key in workspaces && CanSee(workspaces[key], user)
                                                              && s == Summary(workspaces[key])
      ensures |summaries| == |VisibleKeys(workspaces, user)|
    {
      summaries := VisibleSummaries(workspaces, user);
    }

    /** Deletes a workspace; only its owner may. */
    method DeleteWorkspace(workspaceId: string, userId: string) returns (r: Status)
      modifies this
      ensures workspaceId !in old(workspaces) ==> r == Refused(WorkspaceNotFound)
      ensures workspaceId in old(workspaces) && old(workspaces)[workspaceId].owner != userId
              ==> r == Refused(OnlyOwnerDeletes)
      ensures r.Success? <==> workspaceId in old(workspaces) && old(workspaces)[workspaceId].owner == userId
      ensures r.Success? ==> workspaces == old(workspaces) - {workspaceId}
      ensures r.Refused? ==> workspaces == old(workspaces)
      ensures old(Valid()) ==> Valid()
    {
      if workspaceId !in workspaces {
        return Refused(WorkspaceNotFound);
      }
      if workspaces[workspaceId].owner != userId {
        return Refused(OnlyOwnerDeletes);
      }
      workspaces := workspaces - {workspaceId};
      r := Success;
    }

    /** Whether `user` holds a manager entry, scanned as the Python implementation scans it. */
    static method HasManagerEntry(perms: seq<Permission>, user: string) returns (hasPermission: bool)
      ensures hasPermission <==> Manages(perms, user)
    {
      hasPermission := false;
      var i := 0;
      while i < |perms|
        invariant 0 <= i <= |perms|
        invariant forall j :: 0 <= j < i ==> !(perms[j].userId == user && Manager(perms[j].role))
      {
        if perms[i].userId == user && Manager(perms[i].role) {
          hasPermission := true;
          break;
        }
        i := i + 1;
      }
    }

    /** Adds `userId` with `role`, on behalf of `grantedBy`, who must hold an
        owner or admin entry; a user who already has an entry is refused. */
    method AddUser(workspaceId: string, userId: string, role: string, grantedBy: string, now: string)
      returns (r: Status)
      modifies this
      ensures workspaceId !in old(workspaces) ==> r == Refused(WorkspaceNotFound)
      ensures workspaceId in old(workspaces) ==>
        var ws := old(workspaces)[workspaceId];
        && (!Manages(ws.permissions, grantedBy) ==> r == Refused(NotAllowedToAdd))
        && (Manages(ws.permissions, grantedBy) && HasEntry(ws.permissions, userId) ==> r == Refused(AlreadyMember))
        && (r.Success? <==> Manages(ws.permissions, grantedBy) && !HasEntry(ws.permissions, userId))
        && (r.Success? ==> workspaces == old(workspaces)[ws.id := WithMember(ws, Permission(userId, role, now, grantedBy)).(updatedAt := now)])
      ensures r.Refused? ==> workspaces == old(workspaces)
      ensures old(Valid()) ==> Valid()
    {
      if workspaceId !in workspaces {
        return Refused(WorkspaceNotFound);
      }
      var ws := workspaces[workspaceId];
      var hasPermission := HasManagerEntry(ws.permissions, grantedBy);
      if !hasPermission {
        return Refused(NotAllowedToAdd);
      }
      var i := 0;
      while i < |ws.permissions|
        invariant 0 <= i <= |ws.permissions|
        invariant forall j :: 0 <= j < i ==> ws.permissions[j].userId != userId
      {
        if ws.permissions[i].userId == userId {
          return Refused(AlreadyMember);
        }
        i := i + 1;
      }
      var p := Permission(userId, role, now, grantedBy);
      ghost var before := ws;
      ws := ws.(permissions := ws.permissions + [p]);
      assert ws == WithMember(before, p);
      if old(Valid()) {
        AddKeepsWellFormed(before, p, userId);
      }
      Save(ws, now);
      r := Success;
    }

    /** Removes every entry of `userId`, on behalf of `removedBy`, who must
        hold an owner or admin entry; the owner cannot be removed. */
    method RemoveUser(workspaceId: string, userId: string, removedBy: string, now: string) returns (r: Status)
      modifies this
      ensures workspaceId !in old(workspaces) ==> r == Refused(WorkspaceNotFound)
      ensures workspaceId in old(workspaces) ==>
        var ws := old(workspaces)[workspaceId];
        && (userId == ws.owner ==> r == Refused(OwnerNotRemovable))
        && (userId != ws.owner && !Manages(ws.permissions, removedBy) ==> r == Refused(NotAllowedToRemove))
        && (r.Success? <==> userId != ws.owner && Manages(ws.permissions, removedBy))
        && (r.Success? ==> workspaces == old(workspaces)[ws.id := WithoutMember(ws, userId).(updatedAt := now)])
      ensures r.Refused? ==> workspaces == old(workspaces)
      ensures old(Valid()) ==> Valid()
    {
      if workspaceId !in workspaces {
        return Refused(WorkspaceNotFound);
      }
      var ws := workspaces[workspaceId];
      if userId == ws.owner {
        return Refused(OwnerNotRemovable);
      }
      var hasPermission := HasManagerEntry(ws.permissions, removedBy);
      if !hasPermission {
        return Refused(NotAllowedToRemove);
      }
      if old(Valid()) {
        RemoveKeepsWellFormed(ws, userId, userId);
      }
      ws := ws.(permissions := Without(ws.permissions, userId));
      Save(ws, now);
      r := Success;
    }

    /** Whether the first entry for `userId` grants `action`; false for a
        missing workspace. */
    function CheckPermission(workspaceId: string, userId: string, action: string): (b: bool)
      reads this
      ensures b <==> workspaceId in workspaces && RoleOf(workspaces[workspaceId].permissions, userId).Some?
                     && action in Actions(RoleOf(workspaces[workspaceId].permissions, userId).value)
    {
      if workspaceId in workspaces then
        PermittedByRole(workspaces[workspaceId].permissions, userId, action);
        Permitted(workspaces[workspaceId].permissions, userId, action)
      else false
    }

    /** The role of the first entry for `userId`; None for a missing workspace
        or a non-member. */
    function GetUserRole(workspaceId: string, userId: string): (r: Option<string>)
      reads this
      ensures r.Some? <==> workspaceId in workspaces && HasEntry(workspaces[workspaceId].permissions, userId)
      ensures r.Some? ==> exists i :: FirstEntry(workspaces[workspaceId].permissions, userId, i)
                                      && workspaces[workspaceId].permissions[i].role == r.value
    {
      if workspaceId in workspaces then RoleOf(workspaces[workspaceId].permissions, userId) else None
    }

    /** Appends a new dashboard; `dashboardId` stands for the first eight
        characters of a fresh UUID. Requires "write"; a missing workspace
        fails the permission check first. */
    method CreateDashboard(workspaceId: string, dashboardId: string, name: string, userId: string,
                           description: string, now: string)
      returns (r: Outcome<Dashboard>)
      modifies this
      ensures r.Failed? <==> !old(CheckPermission(workspaceId, userId, "write"))
      ensures r.Failed? ==> r.reason == NotAllowed && workspaces == old(workspaces)
      ensures r.Done? ==> workspaceId in old(workspaces)
      ensures r.Done? && workspaceId in old(workspaces) ==>
        var ws := old(workspaces)[workspaceId];
        && r.value == NewDashboard(dashboardId, name, description, now)
        && workspaces == old(workspaces)[ws.id := ws.(dashboards := ws.dashboards + [r.value], updatedAt := now)]
      ensures old(Valid()) ==> Valid()
    {
      if !CheckPermission(workspaceId, userId, "write") {
        return Failed(NotAllowed);
      }
      var ws := workspaces[workspaceId];
      var dashboard := NewDashboard(dashboardId, name, description, now);
      ws := ws.(dashboards := ws.dashboards + [dashboard]);
      Save(ws, now);
      r := Done(dashboard);
    }

    /** Publishes (or unpublishes) the first dashboard with id `dashboardId`;
        `token` stands for the first twelve characters of a fresh UUID.
        Requires "share". */
    method PublishDashboard(workspaceId: string, dashboardId: string, userId: string, isPublic: bool,
                            token: string, now: string)
      returns (r: Outcome<Links>)
      modifies this
      ensures !old(CheckPermission(workspaceId, userId, "share")) ==> r == Failed(NotAllowedToPublish)
      ensures old(CheckPermission(workspaceId, userId, "share")) ==> workspaceId in old(workspaces)
      ensures old(CheckPermission(workspaceId, userId, "share")) && workspaceId in old(workspaces) ==>
        var ws := old(workspaces)[workspaceId];
        var k := DashboardIndex(ws.dashboards, dashboardId);
        && (k == |ws.dashboards| ==> r == Failed(DashboardNotFound))
        && (k < |ws.dashboards| ==>
              var d := Publish(ws.dashboards[k], isPublic, token, now);
              && r == Done(Links(d.publicUrl, d.embedCode))
              && workspaces == old(workspaces)[ws.id := ws.(dashboards := ws.dashboards[k := d], updatedAt := now)])
      ensures r.Failed? ==> workspaces == old(workspaces)
      ensures old(Valid()) ==> Valid()
    {
      if !CheckPermission(workspaceId, userId, "share") {
        return Failed(NotAllowedToPublish);
      }
      var ws := workspaces[workspaceId];
      var i := FindDashboard(ws.dashboards, dashboardId);
      if i == |ws.dashboards| {
        return Failed(DashboardNotFound);
      }
      var dashboard := ws.dashboards[i];
      dashboard := dashboard.(isPublic := isPublic);
      if isPublic {
        var url := PublicPath + token;
        dashboard := dashboard.(publicUrl := url, embedCode := EmbedCode(url));
      } else {
        dashboard := dashboard.(publicUrl := "", embedCode := "");
      }
      dashboard := dashboard.(updatedAt := now);
      assert dashboard == Publish(ws.dashboards[i], isPublic, token, now);
      var updated := ws.(dashboards := ws.dashboards[i := dashboard]);
      assert updated.permissions == ws.permissions && updated.owner == ws.owner;
      Save(updated, now);
      r := Done(Links(dashboard.publicUrl, dashboard.embedCode));
    }

    /** Looks for a public dashboard whose link contains `token`: the first
        such dashboard of a workspace, the workspaces taken in the store's own
        order. */
    method GetPublicDashboard(token: string) returns (r: Option<PublicView>)
      ensures r.Some? ==> Published(workspaces, token, r.value)
      ensures r.None? ==> forall key, i :: key in workspaces && 0 <= i < |workspaces[key].dashboards|
                            ==> !PublicMatch(workspaces[key].dashboards[i], token)
    {
      var pending := workspaces.Keys;
      while pending != {}
        invariant pending <= workspaces.Keys
        invariant forall key, i :: key in workspaces && key !in pending && 0 <= i < |workspaces[key].dashboards|
                    ==> !PublicMatch(workspaces[key].dashboards[i], token)
        decreases pending
      {
        var key :| key in pending;
        var ws := workspaces[key];
        var i := FindPublic(ws.dashboards, token);
        if i < |ws.dashboards| {
          return Some(View(ws.dashboards[i], ws));
        }
        pending := pending - {key};
      }
      r := None;
    }
  }
}
