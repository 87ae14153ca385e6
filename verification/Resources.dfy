/** Agents, Workspaces, Collections and Documents, their references, and every operation that changes them. */
module Resources {
  import opened Outcomes
  import opened Sequences

  type Id = string

  /** A Knowledge scope of an Agent: a whole Collection, or the named Documents of it. */
  datatype Scope = Scope(collection: Id, documents: Option<seq<Id>>)

  /** The stored configuration, whose constructor is the resource type. */
  datatype Config =
    | AgentConfig(home: Option<Id>, scopes: seq<Scope>)
    | WorkspaceConfig(workspaceType: string)
    | CollectionConfig(retriever: string)

  /** `owner` 0 is the public owner. */
  datatype Resource = Resource(owner: nat, name: string, config: Config, isActive: bool, isDeleted: bool)

  datatype Document = Document(owner: nat, collection: Id, isActive: bool, awaitsCleanup: bool)

  datatype World = World(resources: map<Id, Resource>, documents: map<Id, Document>)

  datatype Actor = Actor(id: nat, isAdmin: bool)

  predicate IsLive(r: Resource) {
    r.isActive && !r.isDeleted
  }

  predicate SameType(a: Config, b: Config) {
    (a.AgentConfig? && b.AgentConfig?) || (a.WorkspaceConfig? && b.WorkspaceConfig?)
    || (a.CollectionConfig? && b.CollectionConfig?)
  }

  predicate CanManage(r: Resource, actor: Actor) {
    r.owner == actor.id || (r.owner == 0 && actor.isAdmin)
  }

  predicate HasAuthority(r: Resource, actor: Actor, global: bool) {
    !r.isDeleted && if global then r.owner == 0 && actor.isAdmin else r.owner == actor.id
  }

  predicate OwnerIsAllowed(agentOwner: nat, owner: nat) {
    if agentOwner == 0 then owner == 0 else owner == 0 || owner == agentOwner
  }

  // ----- References ----------------------------------------------------------------------------------

  function Collections(scopes: seq<Scope>): seq<Id> {
    seq(|scopes|, i requires 0 <= i < |scopes| => scopes[i].collection)
  }

  function DocumentsOf(s: Scope): seq<Id> {
    if s.documents.Some? then s.documents.value else []
  }

  function AllDocuments(scopes: seq<Scope>): seq<Id> {
    if scopes == [] then [] else AllDocuments(scopes[..|scopes| - 1]) + DocumentsOf(scopes[|scopes| - 1])
  }

  /** What the request schema of an Agent demands. */
  predicate IsAgentConfig(config: Config) {
    && config.AgentConfig?
    && NoRepeats(Collections(config.scopes))
    && forall i :: 0 <= i < |config.scopes| && config.scopes[i].documents.Some? ==>
         config.scopes[i].documents.value != [] && NoRepeats(config.scopes[i].documents.value)
  }

  predicate WorkspaceOk(w: World, owner: nat, id: Id) {
    && id in w.resources && w.resources[id].config.WorkspaceConfig? && IsLive(w.resources[id])
    && OwnerIsAllowed(owner, w.resources[id].owner)
  }

  predicate CollectionOk(w: World, owner: nat, id: Id) {
    && id in w.resources && w.resources[id].config.CollectionConfig? && IsLive(w.resources[id])
    && OwnerIsAllowed(owner, w.resources[id].owner)
  }

  /** `lock_active_references` finds the Document. */
  predicate DocumentOk(w: World, collection: Id, id: Id) {
    && id in w.documents && w.documents[id].isActive && w.documents[id].collection == collection
    && collection in w.resources && w.documents[id].owner == w.resources[collection].owner
  }

  predicate ScopeOk(w: World, owner: nat, s: Scope) {
    CollectionOk(w, owner, s.collection)
    && forall i :: 0 <= i < |DocumentsOf(s)| ==> DocumentOk(w, s.collection, DocumentsOf(s)[i])
  }

  /** What `_lock_and_validate_references` accepts. */
  predicate ValidReferences(w: World, owner: nat, config: Config)
    requires config.AgentConfig?
  {
    && NoRepeats(Collections(config.scopes))
    && (config.home.Some? ==>
          WorkspaceOk(w, owner, config.home.value) && config.home.value !in Collections(config.scopes))
    && (forall i :: 0 <= i < |config.scopes| ==> ScopeOk(w, owner, config.scopes[i]))
    && NoRepeats(AllDocuments(config.scopes))
  }

  predicate IsLiveAgent(w: World, a: Id) {
    a in w.resources && IsLive(w.resources[a]) && w.resources[a].config.AgentConfig?
  }

  predicate HasHome(w: World, a: Id, id: Id) {
    IsLiveAgent(w, a) && w.resources[a].config.home == Some(id)
  }

  predicate HasScope(w: World, a: Id, id: Id) {
    IsLiveAgent(w, a) && id in Collections(w.resources[a].config.scopes)
  }

  predicate HasDocument(w: World, a: Id, id: Id) {
    && IsLiveAgent(w, a)
    && exists i :: 0 <= i < |w.resources[a].config.scopes| && id in DocumentsOf(w.resources[a].config.scopes[i])
  }

  ghost predicate WorkspaceInUse(w: World, id: Id) {
    exists a :: HasHome(w, a, id)
  }

  ghost predicate CollectionInUse(w: World, id: Id) {
    (exists a :: HasScope(w, a, id))
    || exists d :: d in w.documents && Blocks(w.documents[d], id)
  }

  predicate Blocks(d: Document, collection: Id) {
    d.collection == collection && (d.isActive || d.awaitsCleanup)
  }

  ghost predicate DocumentInUse(w: World, id: Id) {
    exists a :: HasDocument(w, a, id)
  }

  predicate IsNamed(r: Resource, owner: nat, config: Config, name: string) {
    r.owner == owner && SameType(r.config, config) && r.name == name
  }

  /** The unique constraint on owner, type and name, which deleted rows still take part in. */
  ghost predicate NameIsFree(w: World, id: Id, owner: nat, config: Config, name: string) {
    forall other :: other in w.resources && other != id ==> !IsNamed(w.resources[other], owner, config, name)
  }

  // ----- Operations: `None` is a request that is refused, and changes nothing ------------------------

  ghost function Created(w: World, id: Id, owner: nat, name: string, config: Config): Option<World> {
    if id in w.resources || !NameIsFree(w, id, owner, config, name) then None
    else Some(w.(resources := w.resources[id := Resource(owner, name, config, true, false)]))
  }

  ghost function AgentCreated(w: World, actor: Actor, global: bool, id: Id, name: string, config: Config)
    : Option<World>
  {
    if !IsAgentConfig(config) || (global && !actor.isAdmin) then None
    else
      var owner := if global then 0 else actor.id;
      var after :- Created(w, id, owner, name, config);
      if ValidReferences(after, owner, config) then Some(after) else None
  }

  ghost function OtherCreated(w: World, actor: Actor, global: bool, id: Id, name: string, config: Config)
    : Option<World>
  {
    if config.AgentConfig? || (global && !actor.isAdmin) then None
    else Created(w, id, if global then 0 else actor.id, name, config)
  }

  /** Assigning the fields of one row. */
  ghost function Put(w: World, id: Id, name: string, config: Config, isActive: bool): Option<World>
    requires id in w.resources
  {
    if !NameIsFree(w, id, w.resources[id].owner, config, name) then None
    else
      Some(w.(resources := w.resources[id := w.resources[id].(name := name, config := config, isActive := isActive)]))
  }

  ghost function AgentPut(w: World, actor: Actor, id: Id, name: string, config: Config, isActive: bool): Option<World> {
    if id !in w.resources || !w.resources[id].config.AgentConfig? || !IsAgentConfig(config) then None
    else if w.resources[id].isDeleted || !CanManage(w.resources[id], actor) then None
    else if !ValidReferences(w, w.resources[id].owner, config) then None
    else Put(w, id, name, config, isActive)
  }

  ghost function WorkspacePut(w: World, actor: Actor, global: bool, id: Id, name: string, config: Config,
                              isActive: bool): Option<World>
  {
    if id !in w.resources || !w.resources[id].config.WorkspaceConfig? || !config.WorkspaceConfig? then None
    else if !HasAuthority(w.resources[id], actor, global) then None
    else if w.resources[id].config.workspaceType != config.workspaceType then None
    else if !isActive && WorkspaceInUse(w, id) then None
    else Put(w, id, name, config, isActive)
  }

  ghost function CollectionPut(w: World, actor: Actor, global: bool, id: Id, name: string, config: Config,
                               isActive: bool): Option<World>
  {
    if id !in w.resources || !w.resources[id].config.CollectionConfig? || !config.CollectionConfig? then None
    else if !HasAuthority(w.resources[id], actor, global) then None
    else if w.resources[id].config.retriever != config.retriever then None
    else if !isActive && CollectionInUse(w, id) then None
    else Put(w, id, name, config, isActive)
  }

  function SoftDeleted(w: World, id: Id): World
    requires id in w.resources
  {
    w.(resources := w.resources[id := w.resources[id].(isActive := false, isDeleted := true)])
  }

  function AgentDeleted(w: World, actor: Actor, id: Id): Option<World> {
    if id !in w.resources || !w.resources[id].config.AgentConfig? then None
    else if w.resources[id].isDeleted || !CanManage(w.resources[id], actor) then None
    else Some(SoftDeleted(w, id))
  }

  ghost function WorkspaceDeleted(w: World, actor: Actor, global: bool, id: Id): Option<World> {
    if id !in w.resources || !w.resources[id].config.WorkspaceConfig? then None
    else if !HasAuthority(w.resources[id], actor, global) || WorkspaceInUse(w, id) then None
    else Some(SoftDeleted(w, id))
  }

  ghost function CollectionDeleted(w: World, actor: Actor, global: bool, id: Id): Option<World> {
    if id !in w.resources || !w.resources[id].config.CollectionConfig? then None
    else if !HasAuthority(w.resources[id], actor, global) || CollectionInUse(w, id) then None
    else Some(SoftDeleted(w, id))
  }

  /** `require_manageable`. */
  predicate IsManageableCollection(w: World, actor: Actor, id: Id) {
    && id in w.resources && w.resources[id].config.CollectionConfig? && IsLive(w.resources[id])
    && CanManage(w.resources[id], actor)
  }

  function DocumentUploaded(w: World, actor: Actor, collection: Id, id: Id): Option<World> {
    if id in w.documents || !IsManageableCollection(w, actor, collection) then None
    else Some(w.(documents := w.documents[id := Document(w.resources[collection].owner, collection, true, false)]))
  }

  /** `isolate_for_delete`. */
  ghost function DocumentIsolated(w: World, actor: Actor, id: Id): Option<World> {
    if id !in w.documents || !IsManageableCollection(w, actor, w.documents[id].collection) then None
    else if w.documents[id].owner != w.resources[w.documents[id].collection].owner then None
    else if w.documents[id].isActive && DocumentInUse(w, id) then None
    else Some(w.(documents := w.documents[id := w.documents[id].(isActive := false, awaitsCleanup := true)]))
  }

  /** The cleanup after a delete is over. */
  function CleanupFinished(w: World, id: Id): Option<World> {
    if id !in w.documents || w.documents[id].isActive then None
    else Some(w.(documents := w.documents[id := w.documents[id].(awaitsCleanup := false)]))
  }

  datatype Step =
    | CreateAgent(actor: Actor, global: bool, id: Id, name: string, config: Config)
    | CreateOther(actor: Actor, global: bool, id: Id, name: string, config: Config)
    | PutAgent(actor: Actor, id: Id, name: string, config: Config, isActive: bool)
    | PutWorkspace(actor: Actor, global: bool, id: Id, name: string, config: Config, isActive: bool)
    | PutCollection(actor: Actor, global: bool, id: Id, name: string, config: Config, isActive: bool)
    | DeleteAgent(actor: Actor, id: Id)
    | DeleteWorkspace(actor: Actor, global: bool, id: Id)
    | DeleteCollection(actor: Actor, global: bool, id: Id)
    | UploadDocument(actor: Actor, collection: Id, id: Id)
    | IsolateDocument(actor: Actor, id: Id)
    | FinishCleanup(id: Id)

  ghost function Attempted(w: World, step: Step): Option<World> {
    match step
    case CreateAgent(actor, global, id, name, config) => AgentCreated(w, actor, global, id, name, config)
    case CreateOther(actor, global, id, name, config) => OtherCreated(w, actor, global, id, name, config)
    case PutAgent(actor, id, name, config, isActive) => AgentPut(w, actor, id, name, config, isActive)
    case PutWorkspace(actor, global, id, name, config, isActive) =>
      WorkspacePut(w, actor, global, id, name, config, isActive)
    case PutCollection(actor, global, id, name, config, isActive) =>
      CollectionPut(w, actor, global, id, name, config, isActive)
    case DeleteAgent(actor, id) => AgentDeleted(w, actor, id)
    case DeleteWorkspace(actor, global, id) => WorkspaceDeleted(w, actor, global, id)
    case DeleteCollection(actor, global, id) => CollectionDeleted(w, actor, global, id)
    case UploadDocument(actor, collection, id) => DocumentUploaded(w, actor, collection, id)
    case IsolateDocument(actor, id) => DocumentIsolated(w, actor, id)
    case FinishCleanup(id) => CleanupFinished(w, id)
  }

  ghost function Apply(w: World, step: Step): World {
    var after := Attempted(w, step);
    if after.Some? then after.value else w
  }

  ghost function Run(w: World, steps: seq<Step>): World
    decreases |steps|
  {
    if steps == [] then w else Run(Apply(w, steps[0]), steps[1..])
  }

  // ----- The invariant -------------------------------------------------------------------------------

  /** Every live Agent's references are live, of the right type, with an allowed owner and in the right Collection. */
  ghost predicate AgentsOk(w: World) {
    forall a :: IsLiveAgent(w, a) ==> ValidReferences(w, w.resources[a].owner, w.resources[a].config)
  }

  /** An active Document belongs to a live Collection of its owner. */
  ghost predicate DocumentsOk(w: World) {
    forall d :: d in w.documents ==>
      && w.documents[d].collection in w.resources
      && w.resources[w.documents[d].collection].config.CollectionConfig?
      && w.resources[w.documents[d].collection].owner == w.documents[d].owner
      && (w.documents[d].isActive ==> IsLive(w.resources[w.documents[d].collection]))
  }

  ghost predicate NamesOk(w: World) {
    forall id :: id in w.resources ==>
      NameIsFree(w, id, w.resources[id].owner, w.resources[id].config, w.resources[id].name)
  }

  ghost predicate Inv(w: World) {
    AgentsOk(w) && DocumentsOk(w) && NamesOk(w)
  }

  /** What a reference sees is the same: the row is live, of its type and owner, or was not. */
  predicate SameTarget(before: Resource, after: Resource) {
    SameType(before.config, after.config) && before.owner == after.owner && (IsLive(before) ==> IsLive(after))
  }

  /** References stay valid while their targets stay live. */
  lemma ReferencesStay(w: World, t: World, owner: nat, config: Config)
    requires config.AgentConfig? && ValidReferences(w, owner, config)
    requires forall id :: id in w.resources && (config.home == Some(id) || id in Collections(config.scopes)) ==>
               id in t.resources && SameTarget(w.resources[id], t.resources[id])
    requires forall i, d :: 0 <= i < |config.scopes| && d in DocumentsOf(config.scopes[i]) && d in w.documents ==>
               d in t.documents && t.documents[d] == w.documents[d]
    ensures ValidReferences(t, owner, config)
  {
    forall i | 0 <= i < |config.scopes|
      ensures ScopeOk(t, owner, config.scopes[i])
    {
      assert config.scopes[i].collection == Collections(config.scopes)[i];
      assert ScopeOk(w, owner, config.scopes[i]);
      forall k | 0 <= k < |DocumentsOf(config.scopes[i])|
        ensures DocumentOk(t, config.scopes[i].collection, DocumentsOf(config.scopes[i])[k])
      {
        assert DocumentOk(w, config.scopes[i].collection, DocumentsOf(config.scopes[i])[k]);
      }
    }
  }
}
