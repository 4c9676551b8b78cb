/**
 * The state of the session screen (src/components/SessionView.tsx): the
 * active agents, the latest results, the loading flag and the time of the
 * last update. The toggle updater is a pure function over the previous
 * list; a fetch cycle is one atomic method whose call to the `analyzeSession`
 * server action is the parameter `server` (a thrown error is `Threw`), and
 * whose clock reading is the parameter `now`.
 */
module Session {
  import opened Options
  import opened Agents
  import opened Llm
  import Actions

  /** `prev.filter(a => a.id !== id)`: every entry with that id removed, the rest in order. */
  function RemoveId(prev: seq<Agent>, id: string): (r: seq<Agent>)
    ensures forall a :: a in r <==> a in prev && a.id != id
    ensures !HasId(r, id)
    ensures !HasId(prev, id) ==> r == prev
    ensures |r| <= |prev|
  {
    if prev == [] then []
    else
      var rest := RemoveId(prev[1..], id);
      assert !HasId(prev, id) ==> !HasId(prev[1..], id) by {
        if HasId(prev[1..], id) {
          var i :| 0 <= i < |prev[1..]| && prev[1..][i].id == id;
          assert prev[i + 1].id == id;
        }
      }
      assert !HasId(prev, id) ==> prev == [prev[0]] + prev[1..];
      if prev[0].id == id then rest
      else [prev[0]] + rest
  }

  /** The positions of `prev` whose entry does not carry `id`, in increasing order. */
  function KeptIndices(prev: seq<Agent>, id: string): (idx: seq<int>)
    ensures forall k :: 0 <= k < |idx| ==> 0 <= idx[k] < |prev|
  {
    if prev == [] then []
    else
      var n := |prev| - 1;
      KeptIndices(prev[..n], id) + (if prev[n].id != id then [n] else [])
  }

  /**
   * The kept positions are exactly those whose entry does not carry `id`,
   * in strictly increasing order.
   */
  lemma {:induction false} KeptIndicesSpec(prev: seq<Agent>, id: string)
    ensures var idx := KeptIndices(prev, id);
            && (forall k :: 0 <= k < |idx| ==> prev[idx[k]].id != id)
            && (forall k, l :: 0 <= k < l < |idx| ==> idx[k] < idx[l])
            && (forall i :: 0 <= i < |prev| && prev[i].id != id ==> i in idx)
    decreases |prev|
  {
    if prev != [] {
      var n := |prev| - 1;
      KeptIndicesSpec(prev[..n], id);
    }
  }

  lemma RemoveIdSnoc(init: seq<Agent>, x: Agent, id: string)
    ensures RemoveId(init + [x], id) == RemoveId(init, id) + (if x.id != id then [x] else [])
  {
    RemoveIdAppend(init, [x], id);
    assert RemoveId([x], id) == (if x.id != id then [x] else []);
  }

  /** Extending a list and its index list by one matching entry keeps them aligned. */
  lemma AlignedSnoc(prev: seq<Agent>, r: seq<Agent>, idx: seq<int>, x: Agent, keep: bool)
    requires |r| == |idx|
    requires forall k :: 0 <= k < |idx| ==> 0 <= idx[k] < |prev| && r[k] == prev[idx[k]]
    ensures var r', idx' := r + (if keep then [x] else []), idx + (if keep then [|prev|] else []);
            |r'| == |idx'| && forall k :: 0 <= k < |idx'| ==> r'[k] == (prev + [x])[idx'[k]]
  {
  }

  /**
   * `RemoveId` is exactly the filter: its entries are those of `prev` at the
   * positions not carrying `id`, once each and in their original order.
   */
  lemma {:induction false} RemoveIdIsFilter(prev: seq<Agent>, id: string)
    ensures var r, idx := RemoveId(prev, id), KeptIndices(prev, id);
            |r| == |idx| && forall k :: 0 <= k < |idx| ==> r[k] == prev[idx[k]]
    decreases |prev|
  {
    if prev != [] {
      var n := |prev| - 1;
      var init := prev[..n];
      RemoveIdIsFilter(init, id);
      assert prev == init + [prev[n]];
      RemoveIdSnoc(init, prev[n], id);
      AlignedSnoc(init, RemoveId(init, id), KeptIndices(init, id), prev[n], prev[n].id != id);
    }
  }

  /**
   * The updater of an agent-menu click: an agent whose id is active is
   * removed (every entry with that id); an absent one is appended.
   */
  function Toggled(prev: seq<Agent>, agent: Agent): (r: seq<Agent>)
    ensures HasId(prev, agent.id) ==> r == RemoveId(prev, agent.id) && !HasId(r, agent.id)
    ensures !HasId(prev, agent.id) ==> r == prev + [agent]
  {
    if Find(prev, agent.id).Some? then RemoveId(prev, agent.id) else prev + [agent]
  }

  lemma {:induction false} RemoveIdAppend(a: seq<Agent>, b: seq<Agent>, id: string)
    ensures RemoveId(a + b, id) == RemoveId(a, id) + RemoveId(b, id)
    decreases |a|
  {
    if a == [] {
      assert a + b == b;
    } else {
      assert (a + b)[1..] == a[1..] + b;
      RemoveIdAppend(a[1..], b, id);
    }
  }

  /** Toggling an absent agent twice restores the original list. */
  lemma ToggleAbsentTwice(prev: seq<Agent>, agent: Agent)
    requires !HasId(prev, agent.id)
    ensures Toggled(Toggled(prev, agent), agent) == prev
  {
    var once := prev + [agent];
    assert once[|prev|].id == agent.id;
    RemoveIdAppend(prev, [agent], agent.id);
    assert RemoveId([agent], agent.id) == [];
  }

  /**
   * Toggling an active agent twice keeps the same set of active ids, but the
   * agent now stands last (and only once).
   */
  lemma TogglePresentTwice(prev: seq<Agent>, agent: Agent)
    requires HasId(prev, agent.id)
    ensures var r := Toggled(Toggled(prev, agent), agent);
            && r == RemoveId(prev, agent.id) + [agent]
            && (forall id :: HasId(r, id) <==> HasId(prev, id))
  {
    var removed := RemoveId(prev, agent.id);
    var r := removed + [agent];
    forall id ensures HasId(r, id) <==> HasId(prev, id) {
      if id == agent.id {
        assert r[|removed|].id == id;
      } else {
        if HasId(r, id) {
          var i :| 0 <= i < |r| && r[i].id == id;
          assert r[i] in removed;
          var j :| 0 <= j < |prev| && prev[j] == r[i];
        }
        if HasId(prev, id) {
          var i :| 0 <= i < |prev| && prev[i].id == id;
          assert prev[i] in removed;
          var j :| 0 <= j < |removed| && removed[j] == prev[i];
          assert r[j] == prev[i];
        }
      }
    }
  }

  /** `resp.success && resp.results`: the response of a cycle whose results replace the old ones. */
  predicate Accepted(resp: Actions.Completion<Actions.AnalyzeResult>)
  {
    resp.Returned? && resp.value.success && resp.value.results.Some?
  }

  class SessionView {
    const docId: string
    var activeAgents: seq<Agent>
    var results: map<string, AgentAnalysis>
    var loading: bool
    /** Time of the last accepted response, `null` before the first one. */
    var lastUpdated: Option<int>

    /** The initial state: every registry agent active, in registry order, and nothing fetched. */
    constructor (docId: string)
      ensures this.docId == docId
      ensures activeAgents == AGENTS && results == map[] && !loading && lastUpdated == None
    {
      this.docId := docId;
      activeAgents := AGENTS;
      results := map[];
      loading := false;
      lastUpdated := None;
    }

    /** A click on an agent in the menu: only the active list changes; stale results stay. */
    method ToggleAgent(agent: Agent)
      modifies this
      ensures activeAgents == Toggled(old(activeAgents), agent)
      ensures results == old(results) && loading == old(loading) && lastUpdated == old(lastUpdated)
    {
      activeAgents := Toggled(activeAgents, agent);
    }

    /**
     * `fetchAnalysis`: asks the server for the active ids in list order;
     * an accepted response replaces the results wholesale and stamps the
     * time, anything else (a failure record or a thrown error) leaves them;
     * the loading flag, raised for the cycle, is lowered on every path.
     */
    method FetchAnalysis(server: (string, seq<string>) -> Actions.Completion<Actions.AnalyzeResult>, now: int)
      returns (requested: seq<string>)
      modifies this
      ensures requested == Ids(activeAgents) && activeAgents == old(activeAgents)
      ensures Accepted(server(docId, requested)) ==>
                results == server(docId, requested).value.results.value && lastUpdated == Some(now)
      ensures !Accepted(server(docId, requested)) ==>
                results == old(results) && lastUpdated == old(lastUpdated)
      ensures !loading
    {
      loading := true;
      requested := Ids(activeAgents);
      var resp := server(docId, requested);
      if resp.Returned? && resp.value.success && resp.value.results.Some? {
        results := resp.value.results.value;
        lastUpdated := Some(now);
      }
      loading := false;
    }
  }

  /**
   * Deactivating "critic" and refreshing: the next request names the two
   * other agents, in registry order, and not "critic".
   */
  method ToggleCriticThenRefresh(docId: string,
                                 server: (string, seq<string>) -> Actions.Completion<Actions.AnalyzeResult>,
                                 now: int)
    returns (first: seq<string>, second: seq<string>)
    ensures first == ["critic", "creative", "analyst"]
    ensures second == ["creative", "analyst"] && "critic" !in second
  {
    var view := new SessionView(docId);
    first := view.FetchAnalysis(server, now);
    assert HasId(view.activeAgents, "critic") by { assert view.activeAgents[0].id == "critic"; }
    view.ToggleAgent(Critic);
    assert view.activeAgents == [Creative, Analyst] by {
      assert RemoveId([Analyst], "critic") == [Analyst];
      assert RemoveId([Creative, Analyst], "critic") == [Creative] + RemoveId([Analyst], "critic");
    }
    second := view.FetchAnalysis(server, now);
  }
}
