/**
 * The labelled property graph that ingestion writes and retrieval reads,
 * standing in for the Neo4j database. Artist and SalesAgent nodes are keyed by
 * their `name` (they are only ever merged on it), Document nodes by their
 * `doc_id`. Relationships are created with Cypher `CREATE`, never merged, so
 * they are kept as a sequence in which the same relationship may occur twice.
 */
module Graph {
  import opened Wrappers
  import opened Similarity

  /** The `doc_id` of a Document node (a uuid4 string in the system; only equality and freshness matter). */
  type DocId = nat

  datatype ArtistNode = ArtistNode(revenue: real, embedding: Embedding)

  datatype AgentNode = AgentNode(embedding: Embedding)

  /** A Document node. Its vector is optional: the graph may hold Document nodes whose `embedding` is not a list. */
  datatype DocumentNode = DocumentNode(text: string, pageNumber: nat, chunkIndex: nat, embedding: Option<Embedding>)

  /** A relationship, named by the keys of the nodes it connects. */
  datatype Edge =
    | Managed(agent: string, artist: string)           // (SalesAgent)-[:MANAGED]->(Artist)
    | RelatedTo(doc: DocId, target: DocId)              // (Document)-[:RELATED_TO]->(Document)
    | MentionsArtist(doc: DocId, artist: string)        // (Document)-[:MENTIONS]->(Artist)
    | MentionsAgent(doc: DocId, agent: string)          // (Document)-[:MENTIONS]->(SalesAgent)

  /** The whole graph as a value, as a read-only query sees it. */
  datatype Snapshot = Snapshot(
    artists: map<string, ArtistNode>,
    agents: map<string, AgentNode>,
    documents: map<DocId, DocumentNode>,
    edges: seq<Edge>)

  /** Both end nodes of `e` exist in `s`: the condition under which `MATCH ... MATCH ... CREATE` creates `e`. */
  predicate Connects(s: Snapshot, e: Edge)
  {
    match e
    case Managed(agent, artist) => agent in s.agents && artist in s.artists
    case RelatedTo(d1, d2) => d1 in s.documents && d2 in s.documents
    case MentionsArtist(d, artist) => d in s.documents && artist in s.artists
    case MentionsAgent(d, agent) => d in s.documents && agent in s.agents
  }

  /**
   * `graph.merge(node, label, key)` applied to the entries in order: the node
   * under each key is created when absent and its properties replaced when present.
   */
  function UpsertAll<K, V>(m: map<K, V>, entries: seq<(K, V)>): (r: map<K, V>)
    ensures r.Keys == m.Keys + set i | 0 <= i < |entries| :: entries[i].0
    decreases |entries|
  {
    if entries == [] then m
    else
      var init := entries[..|entries| - 1];
      var last := entries[|entries| - 1];
      assert (set i | 0 <= i < |entries| :: entries[i].0)
          == (set i | 0 <= i < |init| :: init[i].0) + {last.0};
      UpsertAll(m, init)[last.0 := last.1]
  }

  /** Upserting entries leaves every key they do not mention untouched. */
  lemma {:induction false} UpsertAllKeepsOthers<K, V>(m: map<K, V>, entries: seq<(K, V)>, k: K)
    requires k in m
    requires forall i :: 0 <= i < |entries| ==> entries[i].0 != k
    ensures UpsertAll(m, entries)[k] == m[k]
    decreases |entries|
  {
    if entries != [] {
      UpsertAllKeepsOthers(m, entries[..|entries| - 1], k);
    }
  }

  /** After upserting, a key holds the value of the last entry that names it. */
  lemma {:induction false} UpsertAllLastWins<K, V>(m: map<K, V>, entries: seq<(K, V)>, i: nat)
    requires i < |entries|
    requires forall j :: i < j < |entries| ==> entries[j].0 != entries[i].0
    ensures UpsertAll(m, entries)[entries[i].0] == entries[i].1
    decreases |entries|
  {
    if i < |entries| - 1 {
      UpsertAllLastWins(m, entries[..|entries| - 1], i);
    }
  }

  /** Upserting is overriding the old map with the map the entries alone build. */
  lemma {:induction false} UpsertAllIsOverride<K, V>(m: map<K, V>, entries: seq<(K, V)>)
    ensures UpsertAll(m, entries) == m + UpsertAll(map[], entries)
    decreases |entries|
  {
    if entries != [] {
      var init := entries[..|entries| - 1];
      var last := entries[|entries| - 1];
      UpsertAllIsOverride(m, init);
      assert UpsertAll(m, entries) == (m + UpsertAll(map[], init))[last.0 := last.1];
      assert UpsertAll(map[], entries) == UpsertAll(map[], init)[last.0 := last.1];
    }
  }

  /** Upserting the same entries a second time changes nothing: re-ingestion creates no duplicate node. */
  lemma UpsertAllIdempotent<K, V>(m: map<K, V>, entries: seq<(K, V)>)
    ensures UpsertAll(UpsertAll(m, entries), entries) == UpsertAll(m, entries)
  {
    var r := UpsertAll(map[], entries);
    UpsertAllIsOverride(m, entries);
    UpsertAllIsOverride(UpsertAll(m, entries), entries);
    assert (m + r) + r == m + r;
  }

  /**
   * Upserting entries that name the same keys in the same order as earlier
   * ones overwrites every value those earlier entries left: the result is as
   * if only the later entries had been upserted.
   */
  lemma UpsertAllOverwrites<K, V>(m: map<K, V>, first: seq<(K, V)>, second: seq<(K, V)>)
    requires |first| == |second|
    requires forall i :: 0 <= i < |first| ==> first[i].0 == second[i].0
    ensures UpsertAll(UpsertAll(m, first), second) == UpsertAll(m, second)
  {
    var r1, r2 := UpsertAll(map[], first), UpsertAll(map[], second);
    assert r1.Keys == r2.Keys by {
      assert (set i | 0 <= i < |first| :: first[i].0) == (set i | 0 <= i < |second| :: second[i].0);
    }
    UpsertAllIsOverride(m, first);
    UpsertAllIsOverride(m, second);
    UpsertAllIsOverride(UpsertAll(m, first), second);
    assert (m + r1) + r2 == m + r2;
  }

  /** Adding one element that is not yet in a set adds it once to the set's multiset. */
  lemma MultisetOfSetAdd<T>(s: set<T>, x: T)
    requires x !in s
    ensures multiset(s + {x}) == multiset(s) + multiset{x}
  {
  }

  /** The Neo4j database as the ingestion code mutates it. */
  class GraphStore {
    var artists: map<string, ArtistNode>
    var agents: map<string, AgentNode>
    var documents: map<DocId, DocumentNode>
    var edges: seq<Edge>
    /** The uuid supply: every id below it has been handed out. */
    var nextDocId: DocId

    function View(): Snapshot
      reads this
    {
      Snapshot(artists, agents, documents, edges)
    }

    /** Every relationship connects existing nodes, and no Document holds an id the supply will hand out. */
    ghost predicate Valid()
      reads this
    {
      && (forall d :: d in documents ==> d < nextDocId)
      && (forall e :: e in edges ==> Connects(View(), e))
    }

    constructor ()
      ensures Valid()
      ensures artists == map[] && agents == map[] && documents == map[] && edges == []
    {
      artists, agents, documents, edges := map[], map[], map[], [];
      nextDocId := 0;
    }

    /** `graph.merge(Node("Artist", name=name, ...), "Artist", "name")`. */
    method MergeArtist(name: string, node: ArtistNode)
      requires Valid()
      modifies this`artists
      ensures Valid()
      ensures artists == old(artists)[name := node]
    {
      artists := artists[name := node];
    }

    /** `graph.merge(Node("SalesAgent", name=name, ...), "SalesAgent", "name")`. */
    method MergeSalesAgent(name: string, node: AgentNode)
      requires Valid()
      modifies this`agents
      ensures Valid()
      ensures agents == old(agents)[name := node]
    {
      agents := agents[name := node];
    }

    /** `str(uuid.uuid4())`: an id that no Document node holds, now or later from this supply. */
    method FreshDocId() returns (id: DocId)
      requires Valid()
      modifies this`nextDocId
      ensures Valid()
      ensures id !in documents && old(nextDocId) <= id < nextDocId
    {
      id := nextDocId;
      nextDocId := nextDocId + 1;
    }

    /** `graph.create(Node("Document", doc_id=id, ...))`: a new node, never merged with another. */
    method CreateDocument(id: DocId, node: DocumentNode)
      requires Valid()
      requires id !in documents && id < nextDocId
      modifies this`documents
      ensures Valid()
      ensures documents == old(documents)[id := node]
    {
      documents := documents[id := node];
    }

    /** `MATCH` both end nodes, then `CREATE` the relationship: when an end node is missing nothing is created. */
    method CreateEdge(e: Edge)
      requires Valid()
      modifies this`edges
      ensures Valid()
      ensures edges == if Connects(View(), e) then old(edges) + [e] else old(edges)
    {
      if Connects(View(), e) {
        edges := edges + [e];
      }
    }
  }
}
