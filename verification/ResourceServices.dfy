/** The services over the resource tables: rows change in place, and the checks are loops over rows. */
module ResourceServices {
  import opened Outcomes
  import opened Sequences
  import opened Resources

  class ResourceDatabase {
    var resources: map<Id, Resource>
    var documents: map<Id, Document>

    function Contents(): World
      reads this
    {
      World(resources, documents)
    }

    constructor ()
      ensures Contents() == World(map[], map[])
    {
      resources, documents := map[], map[];
    }

    // ----- Checks ------------------------------------------------------------------------------------

    /** `_lock_and_validate_references`: first that no id is expected twice, then each target, then the Documents. */
    method ReferencesAreValid(owner: nat, config: Config) returns (valid: bool)
      requires config.AgentConfig?
      ensures valid <==> ValidReferences(Contents(), owner, config)
    {
      hide AllDocuments, NoRepeats, ScopeOk, WorkspaceOk;
      var distinct := ExpectsDistinct(config);
      if !distinct {
        return false;
      }
      if config.home.Some? && !WorkspaceOk(Contents(), owner, config.home.value) {
        return false;
      }
      var fine := ScopesAreValid(owner, config.scopes);
      if !fine {
        return false;
      }
      valid := DocumentsAreDistinct(config.scopes);
    }

    /** The loop that fills `expected_types`. */
    method ExpectsDistinct(config: Config) returns (distinct: bool)
      requires config.AgentConfig?
      ensures distinct <==> NoRepeats(Collections(config.scopes))
                            && (config.home.Some? ==> config.home.value !in Collections(config.scopes))
    {
      var all := Collections(config.scopes);
      var expected: set<Id> := if config.home.Some? then {config.home.value} else {};
      for i := 0 to |config.scopes|
        invariant NoRepeats(all[..i]) && (config.home.Some? ==> config.home.value !in all[..i])
        invariant forall id :: id in expected <==> id in all[..i] || config.home == Some(id)
      {
        assert all[..i + 1] == all[..i] + [all[i]];
        LastIsNew(all[..i], all[i]);
        if config.scopes[i].collection in expected {
          if all[i] in all[..i] {
            var k :| 0 <= k < i && all[k] == all[i];
            assert !NoRepeats(all);
          }
          return false;
        }
        expected := expected + {config.scopes[i].collection};
      }
      assert all[..|config.scopes|] == all;
      distinct := true;
    }

    method ScopesAreValid(owner: nat, scopes: seq<Scope>) returns (valid: bool)
      ensures valid <==> forall i :: 0 <= i < |scopes| ==> ScopeOk(Contents(), owner, scopes[i])
    {
      for i := 0 to |scopes|
        invariant forall k :: 0 <= k < i ==> ScopeOk(Contents(), owner, scopes[k])
      {
        if !CollectionOk(Contents(), owner, scopes[i].collection) {
          return false;
        }
        var requested := DocumentsOf(scopes[i]);
        for k := 0 to |requested|
          invariant forall j :: 0 <= j < k ==> DocumentOk(Contents(), scopes[i].collection, requested[j])
        {
          if !DocumentOk(Contents(), scopes[i].collection, requested[k]) {
            return false;
          }
        }
      }
      valid := true;
    }

    method DocumentsAreDistinct(scopes: seq<Scope>) returns (distinct: bool)
      ensures distinct <==> NoRepeats(AllDocuments(scopes))
    {
      var requested: seq<Id> := [];
      for i := 0 to |scopes|
        invariant requested == AllDocuments(scopes[..i])
      {
        assert scopes[..i + 1][..i] == scopes[..i];
        requested := requested + DocumentsOf(scopes[i]);
      }
      assert scopes[..|scopes|] == scopes;
      var seen: set<Id> := {};
      for k := 0 to |requested|
        invariant NoRepeats(requested[..k])
        invariant forall id :: id in seen <==> id in requested[..k]
      {
        assert requested[..k + 1] == requested[..k] + [requested[k]];
        LastIsNew(requested[..k], requested[k]);
        if requested[k] in seen {
          var j :| 0 <= j < k && requested[j] == requested[k];
          return false;
        }
        seen := seen + {requested[k]};
      }
      assert requested[..|requested|] == requested;
      distinct := true;
    }

    method WorkspaceIsReferenced(id: Id) returns (found: bool)
      ensures found <==> WorkspaceInUse(Contents(), id)
    {
      var agents := resources.Keys;
      while agents != {}
        invariant agents <= resources.Keys
        invariant forall a :: HasHome(Contents(), a, id) ==> a in agents
        decreases |agents|
      {
        var a :| a in agents;
        agents := agents - {a};
        if HasHome(Contents(), a, id) {
          return true;
        }
      }
      found := false;
    }

    method CollectionIsReferenced(id: Id) returns (found: bool)
      ensures found <==> exists a :: HasScope(Contents(), a, id)
    {
      var agents := resources.Keys;
      while agents != {}
        invariant agents <= resources.Keys
        invariant forall a :: HasScope(Contents(), a, id) ==> a in agents
        decreases |agents|
      {
        var a :| a in agents;
        agents := agents - {a};
        if HasScope(Contents(), a, id) {
          return true;
        }
      }
      found := false;
    }

    method DocumentsBlockChange(id: Id) returns (found: bool)
      ensures found <==> exists d :: d in documents && Blocks(documents[d], id)
    {
      var left := documents.Keys;
      while left != {}
        invariant left <= documents.Keys
        invariant forall d :: d in documents && Blocks(documents[d], id) ==> d in left
        decreases |left|
      {
        var d :| d in left;
        left := left - {d};
        if Blocks(documents[d], id) {
          return true;
        }
      }
      found := false;
    }

    method CollectionIsInUse(id: Id) returns (found: bool)
      ensures found <==> CollectionInUse(Contents(), id)
    {
      hide HasScope, Blocks;
      found := CollectionIsReferenced(id);
      if !found {
        found := DocumentsBlockChange(id);
      }
    }

    method IsExactlyReferenced(id: Id) returns (found: bool)
      ensures found <==> DocumentInUse(Contents(), id)
    {
      var agents := resources.Keys;
      while agents != {}
        invariant agents <= resources.Keys
        invariant forall a :: HasDocument(Contents(), a, id) ==> a in agents
        decreases |agents|
      {
        var a :| a in agents;
        agents := agents - {a};
        if IsLiveAgent(Contents(), a) {
          var scopes := resources[a].config.scopes;
          for i := 0 to |scopes|
            invariant forall k :: 0 <= k < i ==> id !in DocumentsOf(scopes[k])
          {
            if scopes[i].documents.Some? && id in scopes[i].documents.value {
              assert id in DocumentsOf(resources[a].config.scopes[i]) && HasDocument(Contents(), a, id);
              return true;
            }
          }
        }
        assert !HasDocument(Contents(), a, id);
      }
      found := false;
    }

    /** The unique constraint that a flush runs into. */
    method NameConflicts(id: Id, owner: nat, config: Config, name: string) returns (taken: bool)
      ensures taken <==> !NameIsFree(Contents(), id, owner, config, name)
    {
      var others := resources.Keys - {id};
      while others != {}
        invariant others <= resources.Keys - {id}
        invariant forall x :: x in resources && x != id && IsNamed(resources[x], owner, config, name) ==> x in others
        decreases |others|
      {
        var x :| x in others;
        others := others - {x};
        if IsNamed(resources[x], owner, config, name) {
          return true;
        }
      }
      taken := false;
    }

    // ----- Operations --------------------------------------------------------------------------------

    method CreateAgent(actor: Actor, global: bool, id: Id, name: string, config: Config) returns (ok: bool)
      modifies this
      ensures ok ==> AgentCreated(old(Contents()), actor, global, id, name, config) == Some(Contents())
      ensures !ok ==> AgentCreated(old(Contents()), actor, global, id, name, config) == None
                      && Contents() == old(Contents())
    {
      hide ValidReferences, NameIsFree, IsAgentConfig, NoRepeats;
      if !config.AgentConfig? {
        NotAnAgent(config);
        return false;
      }
      if !IsAgentConfig(config) || (global && !actor.isAdmin) || id in resources {
        return false;
      }
      var owner := if global then 0 else actor.id;
      var taken := NameConflicts(id, owner, config, name);
      if taken {
        return false;
      }
      var before := resources;
      resources := resources[id := Resource(owner, name, config, true, false)];
      ok := ReferencesAreValid(owner, config);
      if !ok {
        resources := before;
      }
    }

    method PutAgent(actor: Actor, id: Id, name: string, config: Config, isActive: bool) returns (ok: bool)
      modifies this
      ensures ok ==> AgentPut(old(Contents()), actor, id, name, config, isActive) == Some(Contents())
      ensures !ok ==> AgentPut(old(Contents()), actor, id, name, config, isActive) == None
                      && Contents() == old(Contents())
    {
      hide ValidReferences, NameIsFree, IsAgentConfig, NoRepeats;
      if !config.AgentConfig? {
        NotAnAgent(config);
        return false;
      }
      if id !in resources || !resources[id].config.AgentConfig? || !IsAgentConfig(config) {
        return false;
      }
      if resources[id].isDeleted || !CanManage(resources[id], actor) {
        return false;
      }
      var owner := resources[id].owner;
      var valid := ReferencesAreValid(owner, config);
      if !valid {
        return false;
      }
      var taken := NameConflicts(id, owner, config, name);
      if taken {
        return false;
      }
      resources := resources[id := resources[id].(name := name, config := config, isActive := isActive)];
      ok := true;
    }

    method DeleteAgent(actor: Actor, id: Id) returns (ok: bool)
      modifies this
      ensures ok ==> AgentDeleted(old(Contents()), actor, id) == Some(Contents())
      ensures !ok ==> AgentDeleted(old(Contents()), actor, id) == None && Contents() == old(Contents())
    {
      if id !in resources || !resources[id].config.AgentConfig? {
        return false;
      }
      if resources[id].isDeleted || !CanManage(resources[id], actor) {
        return false;
      }
      resources := resources[id := resources[id].(isActive := false, isDeleted := true)];
      ok := true;
    }

    method PutWorkspace(actor: Actor, global: bool, id: Id, name: string, config: Config, isActive: bool)
      returns (ok: bool)
      modifies this
      ensures ok ==> WorkspacePut(old(Contents()), actor, global, id, name, config, isActive) == Some(Contents())
      ensures !ok ==> WorkspacePut(old(Contents()), actor, global, id, name, config, isActive) == None
                      && Contents() == old(Contents())
    {
      hide WorkspaceInUse, NameIsFree;
      if id !in resources || !resources[id].config.WorkspaceConfig? || !config.WorkspaceConfig? {
        return false;
      }
      if !HasAuthority(resources[id], actor, global) || resources[id].config.workspaceType != config.workspaceType {
        return false;
      }
      if !isActive {
        var used := WorkspaceIsReferenced(id);
        if used {
          return false;
        }
      }
      var taken := NameConflicts(id, resources[id].owner, config, name);
      if taken {
        return false;
      }
      resources := resources[id := resources[id].(name := name, config := config, isActive := isActive)];
      ok := true;
    }

    method DeleteWorkspace(actor: Actor, global: bool, id: Id) returns (ok: bool)
      modifies this
      ensures ok ==> WorkspaceDeleted(old(Contents()), actor, global, id) == Some(Contents())
      ensures !ok ==> WorkspaceDeleted(old(Contents()), actor, global, id) == None && Contents() == old(Contents())
    {
      hide WorkspaceInUse;
      if id !in resources || !resources[id].config.WorkspaceConfig? || !HasAuthority(resources[id], actor, global) {
        return false;
      }
      var used := WorkspaceIsReferenced(id);
      if used {
        return false;
      }
      resources := resources[id := resources[id].(isActive := false, isDeleted := true)];
      ok := true;
    }

    method PutCollection(actor: Actor, global: bool, id: Id, name: string, config: Config, isActive: bool)
      returns (ok: bool)
      modifies this
      ensures ok ==> CollectionPut(old(Contents()), actor, global, id, name, config, isActive) == Some(Contents())
      ensures !ok ==> CollectionPut(old(Contents()), actor, global, id, name, config, isActive) == None
                      && Contents() == old(Contents())
    {
      hide CollectionInUse, NameIsFree;
      if id !in resources || !resources[id].config.CollectionConfig? || !config.CollectionConfig? {
        return false;
      }
      if !HasAuthority(resources[id], actor, global) || resources[id].config.retriever != config.retriever {
        return false;
      }
      if !isActive {
        var used := CollectionIsInUse(id);
        if used {
          return false;
        }
      }
      var taken := NameConflicts(id, resources[id].owner, config, name);
      if taken {
        return false;
      }
      resources := resources[id := resources[id].(name := name, config := config, isActive := isActive)];
      ok := true;
    }

    method DeleteCollection(actor: Actor, global: bool, id: Id) returns (ok: bool)
      modifies this
      ensures ok ==> CollectionDeleted(old(Contents()), actor, global, id) == Some(Contents())
      ensures !ok ==> CollectionDeleted(old(Contents()), actor, global, id) == None && Contents() == old(Contents())
    {
      hide CollectionInUse;
      if id !in resources || !resources[id].config.CollectionConfig? || !HasAuthority(resources[id], actor, global) {
        return false;
      }
      var used := CollectionIsInUse(id);
      if used {
        return false;
      }
      resources := resources[id := resources[id].(isActive := false, isDeleted := true)];
      ok := true;
    }

    method IsolateDocument(actor: Actor, id: Id) returns (ok: bool)
      modifies this
      ensures ok ==> DocumentIsolated(old(Contents()), actor, id) == Some(Contents())
      ensures !ok ==> DocumentIsolated(old(Contents()), actor, id) == None && Contents() == old(Contents())
    {
      hide DocumentInUse;
      if id !in documents || !IsManageableCollection(Contents(), actor, documents[id].collection) {
        return false;
      }
      if documents[id].owner != resources[documents[id].collection].owner {
        return false;
      }
      if documents[id].isActive {
        var used := IsExactlyReferenced(id);
        if used {
          return false;
        }
      }
      documents := documents[id := documents[id].(isActive := false, awaitsCleanup := true)];
      ok := true;
    }
  }

  lemma NotAnAgent(config: Config)
    requires !config.AgentConfig?
    ensures !IsAgentConfig(config)
  {
  }
}
