/** The permission projection loaders of both languages over the shared key scheme. */
module Projections {
  import opened Collections
  import opened Keys

  /** A field of a JSON object: missing, null, or of its proper type. */
  datatype Field<+T> = Missing | Null | Is(value: T)

  /** A JSON array of names, or a JSON object: its keys in order, and their values. */
  datatype Actions = Listed(names: seq<string>) | ByName(names: seq<string>, scoped: map<string, Option<bool>>)

  /** The fields the loaders look at; any entry may carry any of them. */
  datatype Doc = Doc(
    actions: Field<Actions>,
    admin: Field<bool>,
    wsAdmin: Field<seq<string>>,
    archived: Field<bool>,
    deleted: Field<bool>,
    ws: Field<seq<string>>,
    level: Field<string>,
    autonomous: Field<bool>)

  /** A stored value: not JSON (or empty), the JSON null, or a JSON object. */
  datatype Stored = Unparseable | JsonNull | Object(doc: Doc)

  type Store = map<string, Stored>

  datatype Subject = Subject(typ: string, oboSub: string, id: string)

  datatype Request = Request(tenant: string, subject: Subject, action: string, workspace: string, urn: string)

  datatype Projection = Projection(
    actionKnown: bool,
    actionScoped: bool,
    autonomousEnabled: bool,
    flags: Flags,
    tenantActions: TenantActions,
    workspace: Workspace,
    resource: Resource,
    workspaceArchivedTenant: bool)

  datatype Flags = Flags(found: bool, admin: bool, wsAdmin: seq<string>)

  datatype TenantActions = TenantActions(found: bool, actions: seq<string>)

  datatype Workspace = Workspace(isAssigned: bool, actions: seq<string>, archived: bool)

  datatype Resource = Resource(found: bool, level: string, archived: bool)

  const EMPTY := Projection(false, false, false, Flags(false, false, []), TenantActions(false, []),
                            Workspace(false, [], false), Resource(false, "", false), false)

  /** The key scheme, as names and as the strings they are written to. */
  datatype Key =
    | Catalog
    | FlagsOf(tenant: string, user: string)
    | ActionsOf(tenant: string, user: string)
    | WsOf(tenant: string, user: string, workspace: string)
    | ArchivedWs(tenant: string)
    | ResOf(tenant: string, user: string, hash: string)
    | Meta(tenant: string)

  function Render(k: Key): string {
    match k
    case Catalog => "perm:catalog:actions"
    case FlagsOf(t, u) => "perm:" + t + ":" + u + ":flags"
    case ActionsOf(t, u) => "perm:" + t + ":" + u + ":actions"
    case WsOf(t, u, w) => "perm:" + t + ":" + u + ":ws:" + w
    case ArchivedWs(t) => "perm:" + t + ":archived_ws"
    case ResOf(t, u, h) => "perm:" + t + ":" + u + ":res:" + h
    case Meta(t) => "perm:" + t + ":meta"
  }

  /** On-behalf-of calls read the original user's projection. */
  function EffectiveUser(s: Subject): string {
    if s.typ == "agent_obo" && s.oboSub != "" then s.oboSub else s.id
  }

  function Read(store: Store, k: Key): Stored {
    if Render(k) in store then store[Render(k)] else Unparseable
  }

  function BoolOf(f: Field<bool>): bool {
    f.Is? && f.value
  }

  function ListOf(f: Field<seq<string>>): seq<string> {
    if f.Is? then f.value else []
  }

  // ---- Go ------------------------------------------------------------------------------

  const NO_FIELDS := Doc(Missing, Missing, Missing, Missing, Missing, Missing, Missing, Missing)

  /** Unmarshalling into a struct: null is accepted and leaves the zero value. */
  function GoDoc(v: Stored): Option<Doc> {
    match v
    case Unparseable => None
    case JsonNull => Some(NO_FIELDS)
    case Object(doc) => Some(doc)
  }

  /** The same for a struct with a list of actions: another shape is an error. */
  function GoListDoc(v: Stored): Option<Doc> {
    match GoDoc(v)
    case None => None
    case Some(doc) => if doc.actions.Is? && doc.actions.value.ByName? then None else Some(doc)
  }

  function GoCatalog(v: Stored): map<string, Option<bool>> {
    match GoDoc(v)
    case None => map[]
    case Some(doc) => if doc.actions.Is? && doc.actions.value.ByName? then doc.actions.value.scoped else map[]
  }

  function NamesOf(f: Field<Actions>): seq<string> {
    if f.Is? && f.value.Listed? then f.value.names else []
  }

  function GoFlags(v: Stored): Flags {
    match GoDoc(v)
    case None => Flags(false, false, [])
    case Some(doc) => Flags(true, BoolOf(doc.admin), ListOf(doc.wsAdmin))
  }

  function GoTenantActions(v: Stored): TenantActions {
    match GoListDoc(v)
    case None => TenantActions(false, [])
    case Some(doc) => TenantActions(true, NamesOf(doc.actions))
  }

  function GoWorkspace(v: Stored): Workspace {
    match GoListDoc(v)
    case None => Workspace(false, [], false)
    case Some(doc) =>
      if BoolOf(doc.deleted) then Workspace(false, [], false)
      else Workspace(true, NamesOf(doc.actions), BoolOf(doc.archived))
  }

  function GoArchived(v: Stored, workspace: string): bool {
    match GoDoc(v)
    case None => false
    case Some(doc) => workspace in ListOf(doc.ws)
  }

  function GoResource(v: Stored): Resource {
    match GoDoc(v)
    case None => Resource(false, "", false)
    case Some(doc) =>
      if BoolOf(doc.deleted) then Resource(false, "", false)
      else Resource(true, if doc.level.Is? then doc.level.value else "", BoolOf(doc.archived))
  }

  function GoAutonomous(v: Stored): bool {
    match GoDoc(v)
    case None => false
    case Some(doc) => BoolOf(doc.autonomous)
  }

  /** What the Go loader returns. */
  function GoProjection(store: Store, r: Request, hash: string -> string): Projection {
    var t, u := r.tenant, EffectiveUser(r.subject);
    var known := GoCatalog(Read(store, Catalog));
    Projection(
      r.action in known,
      r.action in known && known[r.action] == Some(true),
      GoAutonomous(Read(store, Meta(t))),
      GoFlags(Read(store, FlagsOf(t, u))),
      GoTenantActions(Read(store, ActionsOf(t, u))),
      if r.workspace == "" then EMPTY.workspace else GoWorkspace(Read(store, WsOf(t, u, r.workspace))),
      if r.urn == "" then EMPTY.resource else GoResource(Read(store, ResOf(t, u, hash(r.urn)))),
      r.workspace != "" && GoArchived(Read(store, ArchivedWs(t)), r.workspace))
  }

  /** The Go loader: one key after another, each filling its part of the projection. */
  method Load(store: Store, r: Request, hash: string -> string) returns (p: Projection)
    ensures p == GoProjection(store, r, hash)
  {
    p := EMPTY;
    var t, u := r.tenant, EffectiveUser(r.subject);
    var known := GoCatalog(Read(store, Catalog));
    if r.action in known {
      p := p.(actionKnown := true, actionScoped := known[r.action] == Some(true));
    }
    p := p.(flags := GoFlags(Read(store, FlagsOf(t, u))));
    p := p.(tenantActions := GoTenantActions(Read(store, ActionsOf(t, u))));
    if r.workspace != "" {
      p := p.(workspace := GoWorkspace(Read(store, WsOf(t, u, r.workspace))));
      p := p.(workspaceArchivedTenant := GoArchived(Read(store, ArchivedWs(t)), r.workspace));
    }
    if r.urn != "" {
      p := p.(resource := GoResource(Read(store, ResOf(t, u, hash(r.urn)))));
    }
    p := p.(autonomousEnabled := GoAutonomous(Read(store, Meta(t))));
  }

  // ---- Python --------------------------------------------------------------------------

  /** json.loads gives None for null, which reads as absent. */
  function PyDoc(v: Stored): Option<Doc> {
    if v.Object? then Some(v.doc) else None
  }

  /** str() of a null level is the text "None". */
  function PyStr(level: Field<string>): string {
    match level
    case Missing => ""
    case Null => "None"
    case Is(s) => s
  }

  function PyCatalog(cat: Option<Doc>): map<string, Option<bool>> {
    if cat.Some? && cat.value.actions.Is? && cat.value.actions.value.ByName? then cat.value.actions.value.scoped
    else map[]
  }

  function PyFlags(entry: Option<Doc>): Flags {
    if entry.None? then EMPTY.flags else Flags(true, BoolOf(entry.value.admin), ListOf(entry.value.wsAdmin))
  }

  /** list() of an object gives its keys. */
  function PyNamesOf(f: Field<Actions>): seq<string> {
    if f.Is? then f.value.names else []
  }

  function PyTenantActions(entry: Option<Doc>): TenantActions {
    if entry.None? then EMPTY.tenantActions else TenantActions(true, PyNamesOf(entry.value.actions))
  }

  function PyWorkspace(entry: Option<Doc>): Workspace {
    if entry.None? || BoolOf(entry.value.deleted) then EMPTY.workspace
    else Workspace(true, PyNamesOf(entry.value.actions), BoolOf(entry.value.archived))
  }

  function PyResource(entry: Option<Doc>): Resource {
    if entry.None? || BoolOf(entry.value.deleted) then EMPTY.resource
    else Resource(true, PyStr(entry.value.level), BoolOf(entry.value.archived))
  }

  function PyArchived(entry: Option<Doc>, workspace: string): bool {
    entry.Some? && workspace in ListOf(entry.value.ws)
  }

  function PyAutonomous(entry: Option<Doc>): bool {
    entry.Some? && BoolOf(entry.value.autonomous)
  }

  /** What the Python loader returns, part by part. */
  function PyProjection(store: Store, r: Request, hash: string -> string): Projection {
    var t, u := r.tenant, EffectiveUser(r.subject);
    var known := PyCatalog(PyDoc(Read(store, Catalog)));
    Projection(
      r.action in known,
      r.action in known && known[r.action] == Some(true),
      PyAutonomous(PyDoc(Read(store, Meta(t)))),
      PyFlags(PyDoc(Read(store, FlagsOf(t, u)))),
      PyTenantActions(PyDoc(Read(store, ActionsOf(t, u)))),
      if r.workspace == "" then EMPTY.workspace else PyWorkspace(PyDoc(Read(store, WsOf(t, u, r.workspace)))),
      if r.urn == "" then EMPTY.resource else PyResource(PyDoc(Read(store, ResOf(t, u, hash(r.urn))))),
      r.workspace != "" && PyArchived(PyDoc(Read(store, ArchivedWs(t))), r.workspace))
  }

  /** The parts for the request's workspace, if it names one. */
  method LoadWorkspace(store: Store, t: string, u: string, w: string) returns (workspace: Workspace, archived: bool)
    ensures workspace == if w == "" then EMPTY.workspace else PyWorkspace(PyDoc(Read(store, WsOf(t, u, w))))
    ensures archived <==> w != "" && PyArchived(PyDoc(Read(store, ArchivedWs(t))), w)
  {
    workspace, archived := EMPTY.workspace, false;
    if w != "" {
      var entry := PyDoc(Read(store, WsOf(t, u, w)));
      if entry.Some? && !BoolOf(entry.value.deleted) {
        workspace := PyWorkspace(entry);
      }
      if PyArchived(PyDoc(Read(store, ArchivedWs(t))), w) {
        archived := true;
      }
    }
  }

  /** The part for the request's resource, if it names one. */
  method LoadResource(store: Store, t: string, u: string, urn: string, hash: string -> string)
    returns (resource: Resource)
    ensures resource == if urn == "" then EMPTY.resource else PyResource(PyDoc(Read(store, ResOf(t, u, hash(urn)))))
  {
    resource := EMPTY.resource;
    if urn != "" {
      var entry := PyDoc(Read(store, ResOf(t, u, hash(urn))));
      if entry.Some? && !BoolOf(entry.value.deleted) {
        resource := PyResource(entry);
      }
    }
  }

  /** The Python loader: the dictionary starts empty and each entry found overwrites its part. */
  method LoadProjection(store: Store, r: Request, hash: string -> string) returns (p: Projection)
    ensures p == PyProjection(store, r, hash)
  {
    p := EMPTY;
    var t, u := r.tenant, EffectiveUser(r.subject);
    var actions := PyCatalog(PyDoc(Read(store, Catalog)));
    if r.action in actions {
      p := p.(actionKnown := true, actionScoped := actions[r.action] == Some(true));
    }
    var flags := PyDoc(Read(store, FlagsOf(t, u)));
    if flags.Some? {
      p := p.(flags := PyFlags(flags));
    }
    var tact := PyDoc(Read(store, ActionsOf(t, u)));
    if tact.Some? {
      p := p.(tenantActions := PyTenantActions(tact));
    }
    var workspace, archived := LoadWorkspace(store, t, u, r.workspace);
    var resource := LoadResource(store, t, u, r.urn, hash);
    p := p.(workspace := workspace, workspaceArchivedTenant := archived, resource := resource);
    p := p.(autonomousEnabled := PyAutonomous(PyDoc(Read(store, Meta(t)))));
  }

  predicate ByNames(v: Stored) {
    v.Object? && v.doc.actions.Is? && v.doc.actions.value.ByName?
  }

  /** No live entry of the user has an object where its list of actions should be. */
  predicate ListsAreLists(store: Store, r: Request) {
    var t, u := r.tenant, EffectiveUser(r.subject);
    && !ByNames(Read(store, ActionsOf(t, u)))
    && (r.workspace != "" ==>
          var v := Read(store, WsOf(t, u, r.workspace));
          ByNames(v) ==> BoolOf(v.doc.deleted))
  }

  /** No entry behind a found flag is a JSON null, and no live grant has a null level. */
  predicate NoTellingNulls(store: Store, r: Request, hash: string -> string) {
    var t, u := r.tenant, EffectiveUser(r.subject);
    && !Read(store, FlagsOf(t, u)).JsonNull?
    && !Read(store, ActionsOf(t, u)).JsonNull?
    && (r.workspace != "" ==> !Read(store, WsOf(t, u, r.workspace)).JsonNull?)
    && (r.urn != "" ==>
          var v := Read(store, ResOf(t, u, hash(r.urn)));
          !v.JsonNull? && !(v.Object? && !BoolOf(v.doc.deleted) && v.doc.level.Null?))
  }

  /** The loaders agree on a request and a store exactly when no entry that sets a found flag is
      a bare null, no live grant has a null level, and no live entry has an object for a list. */
  lemma LoadersAgree(store: Store, r: Request, hash: string -> string)
    ensures GoProjection(store, r, hash) == PyProjection(store, r, hash) <==>
            NoTellingNulls(store, r, hash) && ListsAreLists(store, r)
  {
  }

  /** Key parts that cannot be confused with the punctuation of the scheme. */
  ghost predicate Plain(s: string) {
    ColonFree(s) && s != "flags" && s != "actions"
  }

  /** Tenant and workspace ids are colon-free; hashes are hexadecimal, hence plain. */
  ghost predicate Colonless(k: Key) {
    match k
    case Catalog => true
    case FlagsOf(t, _) => ColonFree(t)
    case ActionsOf(t, _) => ColonFree(t)
    case WsOf(t, _, w) => ColonFree(t) && ColonFree(w)
    case ArchivedWs(t) => ColonFree(t)
    case ResOf(t, _, h) => ColonFree(t) && Plain(h)
    case Meta(t) => ColonFree(t)
  }

  ghost predicate WellFormed(k: Key) {
    Colonless(k) && (k.WsOf? ==> Plain(k.workspace))
  }

  /** A key string after "perm:", as its tenant segment and the rest. */
  ghost function TenantSegment(k: Key): string {
    if k.Catalog? then "catalog" else k.tenant
  }

  ghost function Rest(k: Key): string {
    match k
    case Catalog => "actions"
    case FlagsOf(_, u) => u + ":" + "flags"
    case ActionsOf(_, u) => u + ":" + "actions"
    case WsOf(_, u, w) => (u + ":" + "ws") + ":" + w
    case ArchivedWs(_) => "archived_ws"
    case ResOf(_, u, h) => (u + ":" + "res") + ":" + h
    case Meta(_) => "meta"
  }

  lemma PairKeySplits(t: string, u: string, infix: string, tail: string)
    requires infix == ":" + tail
    ensures "perm:" + t + ":" + u + infix == "perm:" + (t + ":" + (u + ":" + tail))
  {
  }

  lemma TripleKeySplits(t: string, u: string, infix: string, name: string, tail: string)
    requires infix == ":" + name + ":"
    ensures "perm:" + t + ":" + u + infix + tail == "perm:" + (t + ":" + ((u + ":" + name) + ":" + tail))
  {
  }

  lemma RenderWhole(k: Key)
    ensures Render(k) == "perm:" + (TenantSegment(k) + ":" + Rest(k))
  {
    match k
    case Catalog => assert Render(k) == "perm:" + ("catalog" + ":" + "actions");
    case FlagsOf(t, u) => PairKeySplits(t, u, ":flags", "flags");
    case ActionsOf(t, u) => PairKeySplits(t, u, ":actions", "actions");
    case WsOf(t, u, w) => TripleKeySplits(t, u, ":ws:", "ws", w);
    case ArchivedWs(t) => assert Render(k) == "perm:" + (t + ":" + "archived_ws");
    case ResOf(t, u, h) => TripleKeySplits(t, u, ":res:", "res", h);
    case Meta(t) => assert Render(k) == "perm:" + (t + ":" + "meta");
  }

  lemma RenderSplits(k: Key)
    ensures Render(k)[..5] == "perm:" && Render(k)[5..] == TenantSegment(k) + ":" + Rest(k)
  {
    RenderWhole(k);
    var rest := TenantSegment(k) + ":" + Rest(k);
    assert ("perm:" + rest)[..5] == "perm:" && ("perm:" + rest)[5..] == rest;
  }

  ghost predicate PerUser(k: Key) {
    k.FlagsOf? || k.ActionsOf? || k.WsOf? || k.ResOf?
  }

  /** The part of a per-user key before and after its last colon. */
  ghost function Head(k: Key): string
    requires PerUser(k)
  {
    match k
    case FlagsOf(_, u) => u
    case ActionsOf(_, u) => u
    case WsOf(_, u, _) => u + ":" + "ws"
    case ResOf(_, u, _) => u + ":" + "res"
  }

  ghost function Tail(k: Key): string
    requires PerUser(k)
  {
    match k
    case FlagsOf(_, _) => "flags"
    case ActionsOf(_, _) => "actions"
    case WsOf(_, _, w) => w
    case ResOf(_, _, h) => h
  }

  lemma RestHasColon(k: Key)
    requires Colonless(k)
    ensures PerUser(k) <==> !ColonFree(Rest(k))
    ensures PerUser(k) ==> Rest(k) == Head(k) + ":" + Tail(k) && ColonFree(Tail(k))
  {
    if PerUser(k) {
      assert Rest(k)[|Head(k)|] == ':';
    }
  }

  /** Keys with the same string agree on tenant, last part and what comes before it. */
  lemma SameParts(k: Key, k': Key)
    requires Colonless(k) && Colonless(k') && Render(k) == Render(k')
    ensures TenantSegment(k) == TenantSegment(k') && Rest(k) == Rest(k')
    ensures PerUser(k) ==> PerUser(k') && Head(k) == Head(k') && Tail(k) == Tail(k')
  {
    RenderSplits(k);
    RenderSplits(k');
    assert ColonFree(TenantSegment(k)) && ColonFree(TenantSegment(k'));
    ColonCut(TenantSegment(k), Rest(k), TenantSegment(k'), Rest(k'));
    RestHasColon(k);
    RestHasColon(k');
    if PerUser(k) {
      ColonCutLast(Head(k), Tail(k), Head(k'), Tail(k'));
    }
  }

  lemma UserKeysDiffer(k: Key, k': Key)
    requires PerUser(k) && PerUser(k') && WellFormed(k) && WellFormed(k')
    requires k.tenant == k'.tenant && Head(k) == Head(k') && Tail(k) == Tail(k')
    ensures k == k'
  {
    if (k.WsOf? || k.ResOf?) && (k'.WsOf? || k'.ResOf?) {
      ColonCutLast(k.user, if k.WsOf? then "ws" else "res", k'.user, if k'.WsOf? then "ws" else "res");
    }
  }

  /** Every key string parses back to one key, whatever colons the subject contains, when
      tenant and workspace ids are plain. */
  lemma RenderInjective(k: Key, k': Key)
    requires WellFormed(k) && WellFormed(k') && Render(k) == Render(k')
    ensures k == k'
  {
    SameParts(k, k');
    SameParts(k', k);
    if PerUser(k) {
      UserKeysDiffer(k, k');
    }
  }

  ghost predicate NamesAnother(k: Key) {
    exists k' :: Colonless(k') && k' != k && Render(k') == Render(k)
  }

  lemma FlagsClash(t: string, u: string)
    ensures Render(WsOf(t, u, "flags")) == Render(FlagsOf(t, u + ":ws"))
    ensures Render(WsOf(t, u, "actions")) == Render(ActionsOf(t, u + ":ws"))
  {
    assert "perm:" + t + ":" + u + ":ws:" + "flags" == "perm:" + t + ":" + (u + ":ws") + ":flags";
    assert "perm:" + t + ":" + u + ":ws:" + "actions" == "perm:" + t + ":" + (u + ":ws") + ":actions";
  }

  /** Exactly which workspaces are trouble: for every tenant and user, the key of a colon-free
      workspace is another key's string too if and only if it is called flags or actions. */
  lemma WorkspaceClashes(t: string, u: string, w: string)
    requires ColonFree(t) && ColonFree(w)
    ensures NamesAnother(WsOf(t, u, w)) <==> w == "flags" || w == "actions"
  {
    var k := WsOf(t, u, w);
    FlagsClash(t, u);
    if w == "flags" {
      assert Colonless(FlagsOf(t, u + ":ws"));
    } else if w == "actions" {
      assert Colonless(ActionsOf(t, u + ":ws"));
    } else {
      forall k' | Colonless(k') && Render(k') == Render(k) ensures k' == k {
        SameParts(k, k');
        RenderInjective(k, k');
      }
    }
  }

  /** And the loaders read one for the other: an entry for such a workspace of one user is the
      flags or the actions entry of another. */
  lemma ClashingWorkspaceIsRead(store: Store, r: Request, hash: string -> string, u: string, v: Stored)
    requires EffectiveUser(r.subject) == u + ":ws"
    ensures var s := store[Render(WsOf(r.tenant, u, "flags")) := v];
            GoProjection(s, r, hash).flags == GoFlags(v) && PyProjection(s, r, hash).flags == PyFlags(PyDoc(v))
    ensures var s := store[Render(WsOf(r.tenant, u, "actions")) := v];
            && GoProjection(s, r, hash).tenantActions == GoTenantActions(v)
            && PyProjection(s, r, hash).tenantActions == PyTenantActions(PyDoc(v))
  {
    FlagsClash(r.tenant, u);
  }

  /** The keys the loaders read for a request. */
  ghost predicate Asked(q: Key, r: Request, hash: string -> string) {
    var t, u := r.tenant, EffectiveUser(r.subject);
    || q in {Catalog, Meta(t), FlagsOf(t, u), ActionsOf(t, u)}
    || (r.workspace != "" && q in {WsOf(t, u, r.workspace), ArchivedWs(t)})
    || (r.urn != "" && q == ResOf(t, u, hash(r.urn)))
  }

  /** A write to a string that names no key asked for changes neither loader's result. */
  lemma UnaskedWriteInvisible(store: Store, r: Request, hash: string -> string, name: string, v: Stored)
    requires forall q :: Asked(q, r, hash) ==> Render(q) != name
    ensures GoProjection(store[name := v], r, hash) == GoProjection(store, r, hash)
    ensures PyProjection(store[name := v], r, hash) == PyProjection(store, r, hash)
  {
    forall q | Asked(q, r, hash) ensures Read(store[name := v], q) == Read(store, q) {
    }
    var t, u := r.tenant, EffectiveUser(r.subject);
    assert Asked(Catalog, r, hash) && Asked(Meta(t), r, hash);
    assert Asked(FlagsOf(t, u), r, hash) && Asked(ActionsOf(t, u), r, hash);
  }

  /** Tenant isolation: a write under another tenant never changes what either loader returns,
      whatever user, workspace or hash it is for. */
  lemma OtherTenantInvisible(store: Store, r: Request, hash: string -> string, k: Key, v: Stored)
    requires !k.Catalog? && ColonFree(r.tenant) && ColonFree(k.tenant) && k.tenant != r.tenant
    ensures GoProjection(store[Render(k) := v], r, hash) == GoProjection(store, r, hash)
    ensures PyProjection(store[Render(k) := v], r, hash) == PyProjection(store, r, hash)
  {
    forall q | Asked(q, r, hash) ensures Render(q) != Render(k) {
      if Render(q) == Render(k) {
        TenantOfName(q, k);
        assert false;
      }
    }
    UnaskedWriteInvisible(store, r, hash, Render(k), v);
  }

  /** Keys of two colon-free tenants, or of one and the catalog, never have the same string. */
  lemma TenantOfName(q: Key, k: Key)
    requires !k.Catalog? && ColonFree(TenantSegment(q)) && ColonFree(k.tenant) && Render(q) == Render(k)
    ensures !q.Catalog? && q.tenant == k.tenant
  {
    RenderSplits(q);
    RenderSplits(k);
    ColonCut(TenantSegment(q), Rest(q), k.tenant, Rest(k));
    assert PerUser(k) ==> Rest(k)[|k.user|] == ':';
    assert q.Catalog? ==> ColonFree(Rest(q));
  }

  /** The keys a request may depend on. */
  ghost predicate Visible(k: Key, r: Request) {
    k.Catalog? || (k.tenant == r.tenant && (PerUser(k) ==> k.user == EffectiveUser(r.subject)))
  }

  /** Isolation within a tenant as well: with plain workspaces and hashes a write under another
      user never changes what either loader returns, even when subjects contain colons. */
  lemma ForeignWriteInvisible(store: Store, r: Request, hash: string -> string, k: Key, v: Stored)
    requires ColonFree(r.tenant) && Plain(r.workspace) && Plain(hash(r.urn))
    requires WellFormed(k) && !Visible(k, r)
    ensures GoProjection(store[Render(k) := v], r, hash) == GoProjection(store, r, hash)
    ensures PyProjection(store[Render(k) := v], r, hash) == PyProjection(store, r, hash)
  {
    forall q | Asked(q, r, hash) ensures Render(q) != Render(k) {
      if Render(q) == Render(k) {
        RenderInjective(q, k);
        assert false;
      }
    }
    UnaskedWriteInvisible(store, r, hash, Render(k), v);
  }
}
