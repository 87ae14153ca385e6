/** Reference integrity over every sequence of operations, and what it means for a turn. */
module ResourceSafety {
  import opened Outcomes
  import opened Sequences
  import opened Resources

  function With(w: World, id: Id, r: Resource): World {
    w.(resources := w.resources[id := r])
  }

  /** Nobody minds what becomes of row `id`: it is new, it stays what it was, or no live Agent refers to it. */
  ghost predicate IsHarmless(w: World, id: Id, r: Resource) {
    id in w.resources ==>
      SameTarget(w.resources[id], r) || forall a :: !HasHome(w, a, id) && !HasScope(w, a, id)
  }

  /** The references of a live Agent survive a change of a row that nobody minds. */
  lemma OthersKeepReferences(w: World, id: Id, r: Resource, a: Id)
    requires AgentsOk(w) && IsHarmless(w, id, r) && IsLiveAgent(w, a)
    ensures ValidReferences(With(w, id, r), w.resources[a].owner, w.resources[a].config)
  {
    hide Collections, AllDocuments, NoRepeats, ScopeOk;
    var x := w.resources[a];
    assert ValidReferences(w, x.owner, x.config);
    assert SameTargets(w) by {
      TargetsAreSame(w);
    }
    ReferencesStay(w, With(w, id, r), x.owner, x.config) by {
      assert x.config.home == Some(id) ==> HasHome(w, a, id);
      assert id in Collections(x.config.scopes) ==> HasScope(w, a, id);
    }
  }

  predicate SameTargets(w: World) {
    forall id :: id in w.resources ==> SameTarget(w.resources[id], w.resources[id])
  }

  lemma TargetsAreSame(w: World)
    ensures SameTargets(w)
  {
  }

  /** Changing one row keeps every Agent's references, given its own if it is a live Agent itself. */
  lemma ChangeKeepsAgents(w: World, id: Id, r: Resource)
    requires AgentsOk(w) && IsHarmless(w, id, r)
    requires r.config.AgentConfig? && IsLive(r) ==> ValidReferences(With(w, id, r), r.owner, r.config)
    ensures AgentsOk(With(w, id, r))
  {
    hide ValidReferences;
    var t := With(w, id, r);
    forall a | IsLiveAgent(t, a)
      ensures ValidReferences(t, t.resources[a].owner, t.resources[a].config)
    {
      if a != id {
        assert IsLiveAgent(w, a);
        OthersKeepReferences(w, id, r, a);
      }
    }
  }

  lemma ChangeKeepsDocuments(w: World, id: Id, r: Resource)
    requires DocumentsOk(w)
    requires id in w.resources ==>
               SameTarget(w.resources[id], r)
               || (SameType(w.resources[id].config, r.config) && w.resources[id].owner == r.owner
                   && forall d :: d in w.documents && w.documents[d].collection == id ==> !w.documents[d].isActive)
    ensures DocumentsOk(With(w, id, r))
  {
  }

  lemma ChangeKeepsNames(w: World, id: Id, r: Resource)
    requires NamesOk(w) && NameIsFree(w, id, r.owner, r.config, r.name)
    ensures NamesOk(With(w, id, r))
  {
    var t := With(w, id, r);
    forall x, y | x in t.resources && y in t.resources && x != y
      ensures !IsNamed(t.resources[y], t.resources[x].owner, t.resources[x].config, t.resources[x].name)
    {
      if x != id && y != id {
        assert NameIsFree(w, x, w.resources[x].owner, w.resources[x].config, w.resources[x].name);
      }
    }
  }

  lemma SameNameIsFree(w: World, id: Id, r: Resource)
    requires NamesOk(w) && id in w.resources && r.owner == w.resources[id].owner && r.name == w.resources[id].name
    requires SameType(r.config, w.resources[id].config)
    ensures NameIsFree(w, id, r.owner, r.config, r.name)
  {
    assert NameIsFree(w, id, w.resources[id].owner, w.resources[id].config, w.resources[id].name);
  }

  /** References of an Agent that were valid before its own row changed are valid after. */
  lemma OwnReferences(w: World, id: Id, r: Resource, owner: nat, config: Config)
    requires config.AgentConfig? && ValidReferences(w, owner, config)
    requires id in w.resources ==> w.resources[id].config.AgentConfig?
    ensures ValidReferences(With(w, id, r), owner, config)
  {
    hide AllDocuments, NoRepeats;
    forall x | x in w.resources && (config.home == Some(x) || x in Collections(config.scopes))
      ensures x != id
    {
      if x in Collections(config.scopes) {
        var i :| 0 <= i < |config.scopes| && config.scopes[i].collection == x;
        assert ScopeOk(w, owner, config.scopes[i]);
      }
    }
    TargetsAreSame(w);
    ReferencesStay(w, With(w, id, r), owner, config);
  }

  lemma CreatedKeeps(w: World, id: Id, owner: nat, name: string, config: Config)
    requires Inv(w) && Created(w, id, owner, name, config).Some?
    requires config.AgentConfig? ==> ValidReferences(Created(w, id, owner, name, config).value, owner, config)
    ensures Inv(Created(w, id, owner, name, config).value)
  {
    hide ValidReferences, AgentsOk, DocumentsOk, NamesOk, NameIsFree;
    var r := Resource(owner, name, config, true, false);
    ChangeKeepsAgents(w, id, r);
    ChangeKeepsDocuments(w, id, r);
    ChangeKeepsNames(w, id, r);
  }

  lemma AgentPutKeeps(w: World, actor: Actor, id: Id, name: string, config: Config, isActive: bool)
    requires Inv(w) && AgentPut(w, actor, id, name, config, isActive).Some?
    ensures Inv(AgentPut(w, actor, id, name, config, isActive).value)
  {
    hide ValidReferences, AgentsOk, DocumentsOk, NamesOk, NameIsFree;
    var r := w.resources[id].(name := name, config := config, isActive := isActive);
    OwnReferences(w, id, r, r.owner, config);
    AgentsAreNoTargets(w, id);
    NobodyOwnsInAgents(w, id);
    ChangeKeepsAgents(w, id, r);
    ChangeKeepsDocuments(w, id, r);
    ChangeKeepsNames(w, id, r);
  }

  /** What live Agents refer to has the type that the reference asks for. */
  lemma TargetTypes(w: World, a: Id, id: Id)
    requires AgentsOk(w)
    ensures HasHome(w, a, id) ==> id in w.resources && w.resources[id].config.WorkspaceConfig?
    ensures HasScope(w, a, id) ==> id in w.resources && w.resources[id].config.CollectionConfig?
  {
    hide AllDocuments, NoRepeats;
    if IsLiveAgent(w, a) {
      var x := w.resources[a];
      assert ValidReferences(w, x.owner, x.config);
      if id in Collections(x.config.scopes) {
        var i :| 0 <= i < |x.config.scopes| && x.config.scopes[i].collection == id;
        assert ScopeOk(w, x.owner, x.config.scopes[i]);
      }
    }
  }

  lemma AgentsAreNoTargets(w: World, id: Id)
    requires AgentsOk(w) && id in w.resources && w.resources[id].config.AgentConfig?
    ensures forall a :: !HasHome(w, a, id) && !HasScope(w, a, id)
  {
    hide AgentsOk, HasHome, HasScope;
    forall a
      ensures !HasHome(w, a, id) && !HasScope(w, a, id)
    {
      TargetTypes(w, a, id);
    }
  }

  lemma NobodyOwnsInAgents(w: World, id: Id)
    requires DocumentsOk(w) && id in w.resources && !w.resources[id].config.CollectionConfig?
    ensures forall d :: d in w.documents ==> w.documents[d].collection != id
  {
  }

  /** Editing or retiring a Workspace or a Collection that is not in use, or keeping it active. */
  lemma TargetChangeKeeps(w: World, id: Id, r: Resource)
    requires Inv(w) && id in w.resources && !r.config.AgentConfig? && NameIsFree(w, id, r.owner, r.config, r.name)
    requires SameType(w.resources[id].config, r.config) && w.resources[id].owner == r.owner
    requires SameTarget(w.resources[id], r)
             || (r.config.WorkspaceConfig? && !WorkspaceInUse(w, id))
             || (r.config.CollectionConfig? && !CollectionInUse(w, id))
    ensures Inv(With(w, id, r))
  {
    hide ValidReferences, NamesOk, NameIsFree;
    WrongTypeIsNoTarget(w, id);
    hide AgentsOk;
    ChangeKeepsAgents(w, id, r);
    ChangeKeepsDocuments(w, id, r);
    ChangeKeepsNames(w, id, r);
  }

  lemma WrongTypeIsNoTarget(w: World, id: Id)
    requires AgentsOk(w) && id in w.resources
    ensures w.resources[id].config.WorkspaceConfig? ==> forall a :: !HasScope(w, a, id)
    ensures w.resources[id].config.CollectionConfig? ==> forall a :: !HasHome(w, a, id)
  {
    hide AgentsOk, HasHome, HasScope;
    forall a
      ensures w.resources[id].config.WorkspaceConfig? ==> !HasScope(w, a, id)
      ensures w.resources[id].config.CollectionConfig? ==> !HasHome(w, a, id)
    {
      TargetTypes(w, a, id);
    }
  }

  lemma AgentDeletedKeeps(w: World, actor: Actor, id: Id)
    requires Inv(w) && AgentDeleted(w, actor, id).Some?
    ensures Inv(AgentDeleted(w, actor, id).value)
  {
    hide ValidReferences, AgentsOk, DocumentsOk, NamesOk, NameIsFree;
    var r := w.resources[id].(isActive := false, isDeleted := true);
    AgentsAreNoTargets(w, id);
    NobodyOwnsInAgents(w, id);
    SameNameIsFree(w, id, r);
    ChangeKeepsAgents(w, id, r);
    ChangeKeepsDocuments(w, id, r);
    ChangeKeepsNames(w, id, r);
  }

  lemma TargetDeletedKeeps(w: World, id: Id)
    requires Inv(w) && id in w.resources
    requires (w.resources[id].config.WorkspaceConfig? && !WorkspaceInUse(w, id))
             || (w.resources[id].config.CollectionConfig? && !CollectionInUse(w, id))
    ensures Inv(SoftDeleted(w, id))
  {
    hide ValidReferences, AgentsOk, DocumentsOk, NamesOk, NameIsFree, WorkspaceInUse, CollectionInUse;
    var r := w.resources[id].(isActive := false, isDeleted := true);
    SameNameIsFree(w, id, r);
    TargetChangeKeeps(w, id, r);
  }

  // ----- Documents -----------------------------------------------------------------------------------

  lemma DocumentChangeKeeps(w: World, id: Id, d: Document)
    requires Inv(w)
    requires id in w.documents ==> (w.documents[id].isActive && !d.isActive ==> !DocumentInUse(w, id))
    requires id in w.documents ==> d.collection == w.documents[id].collection && d.owner == w.documents[id].owner
                                   && (d.isActive ==> w.documents[id].isActive)
    requires id !in w.documents ==>
               && d.collection in w.resources && w.resources[d.collection].config.CollectionConfig?
               && w.resources[d.collection].owner == d.owner && IsLive(w.resources[d.collection])
    ensures Inv(w.(documents := w.documents[id := d]))
  {
    var t := w.(documents := w.documents[id := d]);
    forall a | IsLiveAgent(t, a)
      ensures ValidReferences(t, t.resources[a].owner, t.resources[a].config)
    {
      assert IsLiveAgent(w, a);
      DocumentReferencesStay(w, id, d, a);
    }
    assert NamesOk(t) by {
      NamesAreOfResources(w, t);
    }
  }

  lemma NamesAreOfResources(w: World, t: World)
    requires NamesOk(w) && t.resources == w.resources
    ensures NamesOk(t)
  {
    forall id | id in t.resources
      ensures NameIsFree(t, id, t.resources[id].owner, t.resources[id].config, t.resources[id].name)
    {
      assert NameIsFree(w, id, w.resources[id].owner, w.resources[id].config, w.resources[id].name);
    }
  }

  lemma DocumentReferencesStay(w: World, id: Id, d: Document, a: Id)
    requires AgentsOk(w) && IsLiveAgent(w, a)
    requires id in w.documents ==> (w.documents[id].isActive && !d.isActive ==> !DocumentInUse(w, id))
    requires id in w.documents ==> d.collection == w.documents[id].collection && d.owner == w.documents[id].owner
    ensures ValidReferences(w.(documents := w.documents[id := d]), w.resources[a].owner, w.resources[a].config)
  {
    hide AllDocuments, NoRepeats, Collections;
    var t := w.(documents := w.documents[id := d]);
    var x := w.resources[a];
    assert ValidReferences(w, x.owner, x.config);
    forall i | 0 <= i < |x.config.scopes|
      ensures ScopeOk(t, x.owner, x.config.scopes[i])
    {
      assert ScopeOk(w, x.owner, x.config.scopes[i]);
      forall k | 0 <= k < |DocumentsOf(x.config.scopes[i])|
        ensures DocumentOk(t, x.config.scopes[i].collection, DocumentsOf(x.config.scopes[i])[k])
      {
        assert DocumentOk(w, x.config.scopes[i].collection, DocumentsOf(x.config.scopes[i])[k]);
        if DocumentsOf(x.config.scopes[i])[k] == id {
          assert HasDocument(w, a, id);
        }
      }
    }
  }

  // ----- All operations ------------------------------------------------------------------------------

  lemma StepKeeps(w: World, step: Step)
    requires Inv(w)
    ensures Inv(Apply(w, step))
  {
    hide Inv, ValidReferences, NameIsFree, WorkspaceInUse, CollectionInUse, DocumentInUse, IsAgentConfig;
    if Attempted(w, step).Some? {
      match step
      case CreateAgent(actor, global, id, name, config) =>
        CreatedKeeps(w, id, if global then 0 else actor.id, name, config);
      case CreateOther(actor, global, id, name, config) =>
        CreatedKeeps(w, id, if global then 0 else actor.id, name, config);
      case PutAgent(actor, id, name, config, isActive) => AgentPutKeeps(w, actor, id, name, config, isActive);
      case PutWorkspace(_, _, id, name, config, isActive) =>
        TargetChangeKeeps(w, id, w.resources[id].(name := name, config := config, isActive := isActive));
      case PutCollection(_, _, id, name, config, isActive) =>
        TargetChangeKeeps(w, id, w.resources[id].(name := name, config := config, isActive := isActive));
      case DeleteAgent(actor, id) => AgentDeletedKeeps(w, actor, id);
      case DeleteWorkspace(_, _, id) => TargetDeletedKeeps(w, id);
      case DeleteCollection(_, _, id) => TargetDeletedKeeps(w, id);
      case UploadDocument(_, collection, id) =>
        DocumentChangeKeeps(w, id, Document(w.resources[collection].owner, collection, true, false));
      case IsolateDocument(_, id) =>
        DocumentChangeKeeps(w, id, w.documents[id].(isActive := false, awaitsCleanup := true));
      case FinishCleanup(id) =>
        DocumentChangeKeeps(w, id, w.documents[id].(awaitsCleanup := false));
    }
  }

  lemma {:induction false} RunKeeps(w: World, steps: seq<Step>)
    requires Inv(w)
    ensures Inv(Run(w, steps))
    decreases |steps|
  {
    hide Inv, Apply;
    if steps != [] {
      StepKeeps(w, steps[0]);
      RunKeeps(Apply(w, steps[0]), steps[1..]);
    }
  }

  // ----- A turn --------------------------------------------------------------------------------------

  datatype Resolution = Unavailable | BadReference | Resolved(agent: Id, owner: nat)

  /** `resolve_for_turn`, as far as references go. */
  function ResolveForTurn(w: World, user: nat, id: Id): Resolution {
    if id !in w.resources || !w.resources[id].config.AgentConfig? || !IsLive(w.resources[id])
       || (w.resources[id].owner != 0 && w.resources[id].owner != user) then Unavailable
    else if ValidReferences(w, w.resources[id].owner, w.resources[id].config) then Resolved(id, w.resources[id].owner)
    else BadReference
  }

  /** Whatever was created, edited and deleted before, a turn never finds a reference of its Agent broken. */
  lemma NoTurnMeetsABadReference(w: World, steps: seq<Step>, user: nat, id: Id)
    requires Inv(w)
    ensures ResolveForTurn(Run(w, steps), user, id) != BadReference
  {
    RunKeeps(w, steps);
  }

  /** What an Agent of `agentOwner` may refer to: live, and public or its owner's own. */
  predicate IsWithinReach(w: World, agentOwner: nat, id: Id) {
    && id in w.resources && IsLive(w.resources[id])
    && (w.resources[id].owner == 0 || w.resources[id].owner == agentOwner)
    && (agentOwner == 0 ==> w.resources[id].owner == 0)
  }

  /** No reference crosses owners: home Workspace, Collections and named Documents are all within the Agent's reach. */
  lemma ReferencesStayWithTheOwner(w: World, steps: seq<Step>, a: Id)
    requires Inv(w) && IsLiveAgent(Run(w, steps), a)
    ensures var t := Run(w, steps);
            var agent := t.resources[a];
            && (agent.config.home.Some? ==> IsWithinReach(t, agent.owner, agent.config.home.value))
            && forall i :: 0 <= i < |agent.config.scopes| ==>
                 var scope := agent.config.scopes[i];
                 && IsWithinReach(t, agent.owner, scope.collection)
                 && forall d :: d in DocumentsOf(scope) ==>
                      && d in t.documents && t.documents[d].isActive && t.documents[d].collection == scope.collection
                      && t.documents[d].owner == t.resources[scope.collection].owner
  {
    hide NoRepeats, AllDocuments, Collections, Run;
    RunKeeps(w, steps);
    var t := Run(w, steps);
    forall i | 0 <= i < |t.resources[a].config.scopes|
      ensures ScopeOk(t, t.resources[a].owner, t.resources[a].config.scopes[i])
    {
    }
  }
}
