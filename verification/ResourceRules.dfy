/**
 Who may do what to a resource, and what then becomes of it, said over owners, names and references: each request
 succeeds exactly under its rule, and a request that does not succeed changes nothing.
 */
module ResourceRules {
  import opened Outcomes
  import opened Sequences
  import opened Resources

  // ----- Rules ---------------------------------------------------------------------------------------

  /** One's own resources, and for an administrator the public ones. */
  predicate MayManage(actor: Actor, owner: nat) {
    actor.id == owner || (owner == 0 && actor.isAdmin)
  }

  /** The public route is for administrators and public resources, the other one for one's own. */
  predicate MayChange(actor: Actor, global: bool, owner: nat) {
    if global then owner == 0 && actor.isAdmin else actor.id == owner
  }

  /** Somebody else has a resource of this owner and type under this name, deleted ones included. */
  ghost predicate NameIsTaken(w: World, id: Id, owner: nat, config: Config, name: string) {
    exists other :: other in w.resources && other != id && w.resources[other].owner == owner
                    && SameType(w.resources[other].config, config) && w.resources[other].name == name
  }

  /** A live Agent has this home. */
  ghost predicate IsHome(w: World, id: Id) {
    exists a :: a in w.resources && w.resources[a].isActive && !w.resources[a].isDeleted
                && w.resources[a].config.AgentConfig? && w.resources[a].config.home == Some(id)
  }

  ghost predicate IsScopeOf(w: World, a: Id, id: Id) {
    && a in w.resources && w.resources[a].isActive && !w.resources[a].isDeleted && w.resources[a].config.AgentConfig?
    && exists i :: 0 <= i < |w.resources[a].config.scopes| && w.resources[a].config.scopes[i].collection == id
  }

  /** A live Agent searches this Collection, or a document of it is active or about to be cleaned up. */
  ghost predicate IsNeeded(w: World, id: Id) {
    || (exists a :: IsScopeOf(w, a, id))
    || exists d :: d in w.documents && w.documents[d].collection == id
                   && (w.documents[d].isActive || w.documents[d].awaitsCleanup)
  }

  ghost predicate Names(w: World, a: Id, id: Id) {
    && a in w.resources && w.resources[a].isActive && !w.resources[a].isDeleted && w.resources[a].config.AgentConfig?
    && exists i :: 0 <= i < |w.resources[a].config.scopes|
                   && w.resources[a].config.scopes[i].documents.Some?
                   && id in w.resources[a].config.scopes[i].documents.value
  }

  /** A live resource of this type that an Agent of this owner may refer to: public, or of the same owner. */
  predicate MayRefer(w: World, owner: nat, id: Id) {
    && id in w.resources && w.resources[id].isActive && !w.resources[id].isDeleted
    && (w.resources[id].owner == 0 || w.resources[id].owner == owner)
  }

  /** Every reference of a configuration leads to something live that its owner may use. */
  predicate LeadsSomewhere(w: World, owner: nat, home: Option<Id>, scopes: seq<Scope>) {
    && (home.Some? ==> MayRefer(w, owner, home.value) && w.resources[home.value].config.WorkspaceConfig?)
    && forall i :: 0 <= i < |scopes| ==>
         && MayRefer(w, owner, scopes[i].collection) && w.resources[scopes[i].collection].config.CollectionConfig?
         && (scopes[i].documents.Some? ==>
               forall k :: 0 <= k < |scopes[i].documents.value| ==>
                 var d := scopes[i].documents.value[k];
                 && d in w.documents && w.documents[d].isActive && w.documents[d].collection == scopes[i].collection
                 && w.documents[d].owner == w.resources[scopes[i].collection].owner)
  }

  /** Nothing is named twice: no Collection, no document within a scope, and no document in two scopes. */
  predicate NamesNothingTwice(scopes: seq<Scope>) {
    && (forall i, j :: 0 <= i < j < |scopes| ==> scopes[i].collection != scopes[j].collection)
    && forall i :: 0 <= i < |scopes| && scopes[i].documents.Some? ==>
         scopes[i].documents.value != [] && NoRepeats(scopes[i].documents.value)
  }

  predicate ScopesAreApart(scopes: seq<Scope>) {
    forall i, j :: 0 <= i < j < |scopes| && scopes[i].documents.Some? && scopes[j].documents.Some? ==>
      forall d :: d in scopes[i].documents.value ==> d !in scopes[j].documents.value
  }

  /** What a stored Agent configuration must be. */
  predicate IsGoodAgent(w: World, owner: nat, config: Config) {
    && config.AgentConfig? && NamesNothingTwice(config.scopes) && ScopesAreApart(config.scopes)
    && LeadsSomewhere(w, owner, config.home, config.scopes)
  }

  // ----- References ----------------------------------------------------------------------------------

  lemma {:induction false} AllDocumentsHold(scopes: seq<Scope>, d: Id)
    ensures d in AllDocuments(scopes) <==> exists i :: 0 <= i < |scopes| && d in DocumentsOf(scopes[i])
  {
    if scopes != [] {
      var n := |scopes| - 1;
      AllDocumentsHold(scopes[..n], d);
      assert forall i :: 0 <= i < n ==> scopes[..n][i] == scopes[i];
    }
  }

  lemma JoinedWithoutRepeats(a: seq<Id>, b: seq<Id>)
    ensures NoRepeats(a + b) <==> NoRepeats(a) && NoRepeats(b) && forall d :: d in a ==> d !in b
  {
    var all := a + b;
    assert forall i :: 0 <= i < |a| ==> all[i] == a[i];
    assert forall i :: 0 <= i < |b| ==> all[|a| + i] == b[i];
    if NoRepeats(all) {
      forall i, j | 0 <= i < j < |b|
        ensures b[i] != b[j]
      {
        assert all[|a| + i] != all[|a| + j];
      }
      forall i, j | 0 <= i < |a| && 0 <= j < |b|
        ensures a[i] != b[j]
      {
        assert all[i] != all[|a| + j];
      }
    }
    if NoRepeats(a) && NoRepeats(b) && forall d :: d in a ==> d !in b {
      forall i, j | 0 <= i < j < |all|
        ensures all[i] != all[j]
      {
        if i < |a| <= j {
          assert all[i] in a && all[j] in b;
        }
      }
    }
  }

  lemma {:induction false} DocumentsApart(scopes: seq<Scope>)
    requires forall i :: 0 <= i < |scopes| ==> NoRepeats(DocumentsOf(scopes[i]))
    ensures NoRepeats(AllDocuments(scopes)) <==> ScopesAreApart(scopes)
  {
    hide NoRepeats;
    if scopes == [] {
      assert NoRepeats<Id>([]) by {
        NothingRepeats();
      }
    } else {
      var n := |scopes| - 1;
      assert forall i :: 0 <= i < n ==> scopes[..n][i] == scopes[i];
      DocumentsApart(scopes[..n]);
      JoinedWithoutRepeats(AllDocuments(scopes[..n]), DocumentsOf(scopes[n]));
      forall d
        ensures d in AllDocuments(scopes[..n]) <==> exists i :: 0 <= i < n && d in DocumentsOf(scopes[i])
      {
        AllDocumentsHold(scopes[..n], d);
      }
      LastIsApart(scopes);
    }
  }

  lemma NothingRepeats()
    ensures NoRepeats<Id>([])
  {
  }

  lemma LastIsApart(scopes: seq<Scope>)
    requires scopes != []
    ensures var n := |scopes| - 1;
            ScopesAreApart(scopes)
            <==> ScopesAreApart(scopes[..n])
                 && forall i, d :: 0 <= i < n && d in DocumentsOf(scopes[i]) ==> d !in DocumentsOf(scopes[n])
  {
    var n := |scopes| - 1;
    assert forall i :: 0 <= i < n ==> scopes[..n][i] == scopes[i];
    if ScopesAreApart(scopes) {
      forall i, d | 0 <= i < n && d in DocumentsOf(scopes[i])
        ensures d !in DocumentsOf(scopes[n])
      {
      }
      forall i, j | 0 <= i < j < n && scopes[..n][i].documents.Some? && scopes[..n][j].documents.Some?
        ensures forall d :: d in scopes[..n][i].documents.value ==> d !in scopes[..n][j].documents.value
      {
        assert scopes[i].documents.Some? && scopes[j].documents.Some?;
      }
    }
    if ScopesAreApart(scopes[..n])
       && forall i, d :: 0 <= i < n && d in DocumentsOf(scopes[i]) ==> d !in DocumentsOf(scopes[n])
    {
      forall i, j | 0 <= i < j < |scopes| && scopes[i].documents.Some? && scopes[j].documents.Some?
        ensures forall d :: d in scopes[i].documents.value ==> d !in scopes[j].documents.value
      {
        if j < n {
          assert scopes[..n][i].documents.Some? && scopes[..n][j].documents.Some?;
        } else {
          forall d | d in scopes[i].documents.value
            ensures d !in scopes[j].documents.value
          {
            assert i < n && d in DocumentsOf(scopes[i]) && d !in DocumentsOf(scopes[n]);
          }
        }
      }
    }
  }

  lemma ConfigIs(config: Config)
    ensures IsAgentConfig(config) <==> config.AgentConfig? && NamesNothingTwice(config.scopes)
  {
    if config.AgentConfig? {
      assert forall i :: 0 <= i < |config.scopes| ==>
          Collections(config.scopes)[i] == config.scopes[i].collection;
    }
  }

  /** The check of all references passes exactly on good configurations. */
  lemma ReferencesAre(w: World, owner: nat, config: Config)
    requires IsAgentConfig(config)
    ensures ValidReferences(w, owner, config) <==> IsGoodAgent(w, owner, config)
  {
    ConfigIs(config);
    assert forall i :: 0 <= i < |config.scopes| ==> Collections(config.scopes)[i] == config.scopes[i].collection;
    NothingRepeats();
    DocumentsApart(config.scopes);
    hide NoRepeats, AllDocuments, ScopesAreApart, NamesNothingTwice;
    if IsGoodAgent(w, owner, config) {
      forall i | 0 <= i < |config.scopes|
        ensures ScopeOk(w, owner, config.scopes[i])
      {
      }
    } else if ValidReferences(w, owner, config) {
      forall i | 0 <= i < |config.scopes|
        ensures ScopeOk(w, owner, config.scopes[i])
      {
      }
    }
  }

  // ----- Requests ------------------------------------------------------------------------------------

  lemma NameIsFreeIs(w: World, id: Id, owner: nat, config: Config, name: string)
    ensures NameIsFree(w, id, owner, config, name) <==> !NameIsTaken(w, id, owner, config, name)
  {
  }

  /** An Agent is created exactly for its own user, or by an administrator for all, under a free name. */
  lemma CreateAgentIs(w: World, actor: Actor, global: bool, id: Id, name: string, config: Config)
    requires id !in w.resources
    ensures var owner := if global then 0 else actor.id;
            var t := w.(resources := w.resources[id := Resource(owner, name, config, true, false)]);
            Attempted(w, CreateAgent(actor, global, id, name, config))
            == if (global ==> actor.isAdmin) && !NameIsTaken(w, id, owner, config, name)
                  && IsGoodAgent(t, owner, config)
               then Some(t) else None
  {
    hide IsAgentConfig, ValidReferences, NameIsFree, NameIsTaken, SameType, NamesNothingTwice, LeadsSomewhere,
      ScopesAreApart;
    var owner := if global then 0 else actor.id;
    NameIsFreeIs(w, id, owner, config, name);
    ConfigIs(config);
    if IsAgentConfig(config) {
      ReferencesAre(w.(resources := w.resources[id := Resource(owner, name, config, true, false)]), owner, config);
    }
  }

  lemma CreateOtherIs(w: World, actor: Actor, global: bool, id: Id, name: string, config: Config)
    requires id !in w.resources && !config.AgentConfig?
    ensures var owner := if global then 0 else actor.id;
            Attempted(w, CreateOther(actor, global, id, name, config))
            == if (global ==> actor.isAdmin) && !NameIsTaken(w, id, owner, config, name)
               then Some(w.(resources := w.resources[id := Resource(owner, name, config, true, false)])) else None
  {
    hide NameIsFree, NameIsTaken, SameType;
    NameIsFreeIs(w, id, if global then 0 else actor.id, config, name);
  }

  /** The row with a new name, configuration and activity; its owner and whether it is deleted stay. */
  function Renewed(w: World, id: Id, name: string, config: Config, isActive: bool): World
    requires id in w.resources
  {
    var r := w.resources[id];
    w.(resources := w.resources[id := Resource(r.owner, name, config, isActive, r.isDeleted)])
  }

  lemma PutAgentIs(w: World, actor: Actor, id: Id, name: string, config: Config, isActive: bool)
    requires id in w.resources && w.resources[id].config.AgentConfig?
    ensures var r := w.resources[id];
            Attempted(w, PutAgent(actor, id, name, config, isActive))
            == if !r.isDeleted && MayManage(actor, r.owner) && IsGoodAgent(w, r.owner, config)
                  && !NameIsTaken(w, id, r.owner, config, name)
               then Some(Renewed(w, id, name, config, isActive)) else None
  {
    hide IsAgentConfig, ValidReferences, NameIsFree, NameIsTaken, SameType, NamesNothingTwice, LeadsSomewhere,
      ScopesAreApart;
    var r := w.resources[id];
    NameIsFreeIs(w, id, r.owner, config, name);
    ConfigIs(config);
    if IsAgentConfig(config) {
      ReferencesAre(w, r.owner, config);
    }
  }

  /** Neither the type nor, of a Workspace, its kind ever changes; and none that is needed is switched off. */
  lemma PutWorkspaceIs(w: World, actor: Actor, global: bool, id: Id, name: string, config: Config, isActive: bool)
    requires id in w.resources && w.resources[id].config.WorkspaceConfig?
    ensures var r := w.resources[id];
            Attempted(w, PutWorkspace(actor, global, id, name, config, isActive))
            == if !r.isDeleted && MayChange(actor, global, r.owner) && config == r.config
                  && (isActive || !IsHome(w, id)) && !NameIsTaken(w, id, r.owner, config, name)
               then Some(Renewed(w, id, name, config, isActive)) else None
  {
    hide NameIsFree, NameIsTaken, SameType;
    NameIsFreeIs(w, id, w.resources[id].owner, config, name);
    HomesAre(w, id);
    hide WorkspaceInUse, IsHome;
  }

  lemma PutCollectionIs(w: World, actor: Actor, global: bool, id: Id, name: string, config: Config, isActive: bool)
    requires id in w.resources && w.resources[id].config.CollectionConfig?
    ensures var r := w.resources[id];
            Attempted(w, PutCollection(actor, global, id, name, config, isActive))
            == if !r.isDeleted && MayChange(actor, global, r.owner) && config == r.config
                  && (isActive || !IsNeeded(w, id)) && !NameIsTaken(w, id, r.owner, config, name)
               then Some(Renewed(w, id, name, config, isActive)) else None
  {
    hide NameIsFree, NameIsTaken, SameType;
    NameIsFreeIs(w, id, w.resources[id].owner, config, name);
    NeedsAre(w, id);
    hide CollectionInUse, IsNeeded;
  }

  lemma HomesAre(w: World, id: Id)
    ensures WorkspaceInUse(w, id) <==> IsHome(w, id)
  {
    if a :| HasHome(w, a, id) {
      assert w.resources[a].config.home == Some(id);
    }
    if a :| a in w.resources && w.resources[a].isActive && !w.resources[a].isDeleted
            && w.resources[a].config.AgentConfig? && w.resources[a].config.home == Some(id) {
      assert HasHome(w, a, id);
    }
  }

  lemma ScopeIs(w: World, a: Id, id: Id)
    ensures HasScope(w, a, id) <==> IsScopeOf(w, a, id)
  {
    if IsLiveAgent(w, a) {
      var scopes := w.resources[a].config.scopes;
      assert forall i :: 0 <= i < |scopes| ==> Collections(scopes)[i] == scopes[i].collection;
      if IsScopeOf(w, a, id) {
        var i :| 0 <= i < |scopes| && scopes[i].collection == id;
        assert Collections(scopes)[i] == id;
      }
    }
  }

  lemma NeedsAre(w: World, id: Id)
    ensures CollectionInUse(w, id) <==> IsNeeded(w, id)
  {
    forall a
      ensures HasScope(w, a, id) <==> IsScopeOf(w, a, id)
    {
      ScopeIs(w, a, id);
    }
    hide HasScope, IsScopeOf;
    if d :| d in w.documents && Blocks(w.documents[d], id) {
      assert w.documents[d].collection == id;
    }
    if d :| d in w.documents && w.documents[d].collection == id
            && (w.documents[d].isActive || w.documents[d].awaitsCleanup) {
      assert Blocks(w.documents[d], id);
    }
  }

  lemma NamesAre(w: World, id: Id)
    ensures DocumentInUse(w, id) <==> exists a :: Names(w, a, id)
  {
    forall a
      ensures HasDocument(w, a, id) <==> Names(w, a, id)
    {
    }
  }

  /** The row is retired: neither active nor visible any more. */
  function Retired(w: World, id: Id): World
    requires id in w.resources
  {
    var r := w.resources[id];
    w.(resources := w.resources[id := Resource(r.owner, r.name, r.config, false, true)])
  }

  /** A resource is deleted exactly by those who may, once, and never while somebody needs it. */
  lemma DeletesAre(w: World, actor: Actor, global: bool, id: Id)
    requires id in w.resources
    ensures var r := w.resources[id];
            && (r.config.AgentConfig? ==>
                  Attempted(w, DeleteAgent(actor, id))
                  == if !r.isDeleted && MayManage(actor, r.owner) then Some(Retired(w, id)) else None)
            && (r.config.WorkspaceConfig? ==>
                  Attempted(w, DeleteWorkspace(actor, global, id))
                  == if !r.isDeleted && MayChange(actor, global, r.owner) && !IsHome(w, id)
                     then Some(Retired(w, id)) else None)
            && (r.config.CollectionConfig? ==>
                  Attempted(w, DeleteCollection(actor, global, id))
                  == if !r.isDeleted && MayChange(actor, global, r.owner) && !IsNeeded(w, id)
                     then Some(Retired(w, id)) else None)
  {
    HomesAre(w, id);
    NeedsAre(w, id);
    hide WorkspaceInUse, IsHome, CollectionInUse, IsNeeded;
  }

  predicate IsOpenTo(w: World, actor: Actor, collection: Id) {
    && collection in w.resources && w.resources[collection].config.CollectionConfig?
    && w.resources[collection].isActive && !w.resources[collection].isDeleted
    && MayManage(actor, w.resources[collection].owner)
  }

  /** Documents come and go with those who may manage their Collection, and none goes that a live Agent names. */
  lemma DocumentsAre(w: World, actor: Actor, collection: Id, id: Id)
    ensures id !in w.documents ==>
              Attempted(w, UploadDocument(actor, collection, id))
              == if IsOpenTo(w, actor, collection)
                 then Some(w.(documents := w.documents[id := Document(w.resources[collection].owner, collection, true,
                                                                      false)]))
                 else None
    ensures id in w.documents ==>
              var d := w.documents[id];
              && Attempted(w, IsolateDocument(actor, id))
                 == (if IsOpenTo(w, actor, d.collection) && d.owner == w.resources[d.collection].owner
                        && (d.isActive ==> !exists a :: Names(w, a, id))
                     then Some(w.(documents := w.documents[id := Document(d.owner, d.collection, false, true)]))
                     else None)
              && Attempted(w, FinishCleanup(id))
                 == if d.isActive then None
                    else Some(w.(documents := w.documents[id := Document(d.owner, d.collection, false, false)]))
  {
    NamesAre(w, id);
    hide DocumentInUse, Names;
  }
}
