/**
 * `load_artists_and_sales_agent_from_sqlite_with_embeddings` of
 * createGraphDB.py: the artist rows of the revenue query and the
 * (sales agent, artist) rows of the join query are given as sequences, in the
 * order the cursor yields them; `embed` is the embedding provider.
 */
module EntityIngestion {
  import opened Text
  import opened Similarity
  import opened Graph

  /** A row `(ArtistName, Revenue)` of the revenue aggregation query. */
  datatype ArtistRow = ArtistRow(artistName: string, revenue: real)

  /** A row `(SalesAgentName, ArtistName)` of the join query. */
  datatype SalesAgentRow = SalesAgentRow(salesAgentName: string, artistName: string)

  /** The merges the artist loop performs, in row order. */
  function ArtistEntries(rows: seq<ArtistRow>, embed: string -> Embedding): (r: seq<(string, ArtistNode)>)
    ensures |r| == |rows|
    ensures forall i :: 0 <= i < |rows| ==>
              r[i].0 == rows[i].artistName && r[i].1 == ArtistNode(rows[i].revenue, embed(rows[i].artistName))
  {
    seq(|rows|, i requires 0 <= i < |rows| => (rows[i].artistName, ArtistNode(rows[i].revenue, embed(rows[i].artistName))))
  }

  /** The merges the sales agent loop performs, in row order. */
  function AgentEntries(rows: seq<SalesAgentRow>, embed: string -> Embedding): (r: seq<(string, AgentNode)>)
    ensures |r| == |rows|
    ensures forall i :: 0 <= i < |rows| ==>
              r[i].0 == rows[i].salesAgentName && r[i].1 == AgentNode(embed(rows[i].salesAgentName))
  {
    seq(|rows|, i requires 0 <= i < |rows| => (rows[i].salesAgentName, AgentNode(embed(rows[i].salesAgentName))))
  }

  /** The MANAGED relationships one agent row calls for: one to every existing artist whose name matches ignoring case. */
  function ManagedFor(agent: string, rowArtist: string, existing: set<string>): set<Edge>
  {
    set a | a in existing && SameIgnoringCase(a, rowArtist) :: Managed(agent, a)
  }

  /** The MANAGED relationships all agent rows call for, each counted once per row that calls for it. */
  function ManagedEdges(rows: seq<SalesAgentRow>, existing: set<string>): multiset<Edge>
    decreases |rows|
  {
    if rows == [] then multiset{}
    else
      var last := rows[|rows| - 1];
      ManagedEdges(rows[..|rows| - 1], existing) + multiset(ManagedFor(last.salesAgentName, last.artistName, existing))
  }

  /**
   * A MANAGED relationship is created exactly from an agent of some row to an
   * existing artist whose name matches that row's artist name ignoring case.
   */
  lemma {:induction false} ManagedEdgesIff(rows: seq<SalesAgentRow>, existing: set<string>, e: Edge)
    ensures e in ManagedEdges(rows, existing) <==>
            e.Managed? && e.artist in existing &&
            exists i :: 0 <= i < |rows| && rows[i].salesAgentName == e.agent && SameIgnoringCase(e.artist, rows[i].artistName)
    decreases |rows|
  {
    if rows != [] {
      var init := rows[..|rows| - 1];
      var last := rows[|rows| - 1];
      ManagedEdgesIff(init, existing, e);
      if e in ManagedFor(last.salesAgentName, last.artistName, existing) {
        assert rows[|rows| - 1] == last;
      }
      if e.Managed? && e.artist in existing &&
         exists i :: 0 <= i < |rows| && rows[i].salesAgentName == e.agent && SameIgnoringCase(e.artist, rows[i].artistName) {
        var i :| 0 <= i < |rows| && rows[i].salesAgentName == e.agent && SameIgnoringCase(e.artist, rows[i].artistName);
        if i < |rows| - 1 {
          assert init[i] == rows[i];
        } else {
          assert e == Managed(last.salesAgentName, e.artist);
        }
      }
    }
  }

  /**
   * The MANAGED relationships depend on the row's artist name only up to
   * case: rows that spell the artist differently, but the same ignoring case,
   * call for the same relationships.
   */
  lemma {:induction false} ManagedEdgesIgnoreCase(rows: seq<SalesAgentRow>, spelled: seq<SalesAgentRow>, existing: set<string>)
    requires |rows| == |spelled|
    requires forall i :: 0 <= i < |rows| ==>
               spelled[i].salesAgentName == rows[i].salesAgentName && SameIgnoringCase(spelled[i].artistName, rows[i].artistName)
    ensures ManagedEdges(spelled, existing) == ManagedEdges(rows, existing)
    decreases |rows|
  {
    if rows != [] {
      var n := |rows| - 1;
      ManagedEdgesIgnoreCase(rows[..n], spelled[..n], existing);
      assert ManagedFor(spelled[n].salesAgentName, spelled[n].artistName, existing)
          == ManagedFor(rows[n].salesAgentName, rows[n].artistName, existing);
    }
  }

  /** Considering one more existing artist adds its relationship exactly when its name matches the row's. */
  lemma ManagedStep(agent: string, rowArtist: string, done: set<string>, a: string)
    requires a !in done
    ensures multiset(ManagedFor(agent, rowArtist, done + {a}))
         == multiset(ManagedFor(agent, rowArtist, done))
            + if SameIgnoringCase(a, rowArtist) then multiset{Managed(agent, a)} else multiset{}
  {
    var linked := ManagedFor(agent, rowArtist, done);
    if SameIgnoringCase(a, rowArtist) {
      assert ManagedFor(agent, rowArtist, done + {a}) == linked + {Managed(agent, a)};
      MultisetOfSetAdd(linked, Managed(agent, a));
    } else {
      assert ManagedFor(agent, rowArtist, done + {a}) == linked;
    }
  }

  /**
   * The inner loop over `existing_artists` for one agent row: a MANAGED
   * relationship from the agent to every existing artist whose name matches
   * the row's artist name ignoring case, each created once, in set order.
   */
  method LinkManaged(g: GraphStore, agent: string, rowArtist: string, existing: set<string>)
    returns (ghost added: seq<Edge>)
    requires g.Valid()
    requires agent in g.agents && existing <= g.artists.Keys
    modifies g`edges
    ensures g.Valid()
    ensures g.edges == old(g.edges) + added
    ensures multiset(added) == multiset(ManagedFor(agent, rowArtist, existing))
  {
    ghost var before := g.edges;
    added := [];
    var todo := existing;
    ghost var done: set<string> := {};
    while todo != {}
      invariant g.Valid()
      invariant todo + done == existing && todo !! done
      invariant g.edges == before + added
      invariant multiset(added) == multiset(ManagedFor(agent, rowArtist, done))
      decreases todo
    {
      var a :| a in todo;
      ManagedStep(agent, rowArtist, done, a);
      if SameIgnoringCase(a, rowArtist) {
        g.CreateEdge(Managed(agent, a));
        added := added + [Managed(agent, a)];
      }
      todo := todo - {a};
      done := done + {a};
    }
  }

  /** The artist loop: each row's artist is merged by name, and the names are collected in row order. */
  method MergeArtists(g: GraphStore, artistRows: seq<ArtistRow>, embed: string -> Embedding)
    returns (artistNames: seq<string>)
    requires g.Valid()
    modifies g`artists
    ensures g.Valid()
    ensures |artistNames| == |artistRows|
    ensures forall i :: 0 <= i < |artistRows| ==> artistNames[i] == artistRows[i].artistName
    ensures g.artists == UpsertAll(old(g.artists), ArtistEntries(artistRows, embed))
  {
    var entries := ArtistEntries(artistRows, embed);
    artistNames := [];
    var i := 0;
    while i < |artistRows|
      invariant 0 <= i <= |artistRows|
      invariant g.Valid()
      invariant |artistNames| == i
      invariant forall k :: 0 <= k < i ==> artistNames[k] == artistRows[k].artistName
      invariant g.artists == UpsertAll(old(g.artists), entries[..i])
    {
      var row := artistRows[i];
      g.MergeArtist(row.artistName, ArtistNode(row.revenue, embed(row.artistName)));
      artistNames := artistNames + [row.artistName];
      assert entries[..i + 1][..i] == entries[..i];
      i := i + 1;
    }
    assert entries[..i] == entries;
  }

  /**
   * The agent loop: each row's agent is merged by name and linked by MANAGED
   * to the artists of `existing` whose name matches the row's ignoring case.
   */
  method MergeAgentsAndLink(g: GraphStore, agentRows: seq<SalesAgentRow>, existing: set<string>, embed: string -> Embedding)
    requires g.Valid()
    requires existing <= g.artists.Keys
    modifies g`agents, g`edges
    ensures g.Valid()
    ensures g.agents == UpsertAll(old(g.agents), AgentEntries(agentRows, embed))
    ensures |g.edges| >= |old(g.edges)| && g.edges[..|old(g.edges)|] == old(g.edges)
    ensures multiset(g.edges[|old(g.edges)|..]) == ManagedEdges(agentRows, existing)
  {
    ghost var edges0 := g.edges;
    var entries := AgentEntries(agentRows, embed);
    var j := 0;
    while j < |agentRows|
      invariant 0 <= j <= |agentRows|
      invariant g.Valid()
      invariant g.agents == UpsertAll(old(g.agents), entries[..j])
      invariant |g.edges| >= |edges0| && g.edges[..|edges0|] == edges0
      invariant multiset(g.edges[|edges0|..]) == ManagedEdges(agentRows[..j], existing)
    {
      var row := agentRows[j];
      g.MergeSalesAgent(row.salesAgentName, AgentNode(embed(row.salesAgentName)));
      ghost var mid := g.edges;
      ghost var linked := LinkManaged(g, row.salesAgentName, row.artistName, existing);
      assert g.edges[|edges0|..] == mid[|edges0|..] + linked;
      assert entries[..j + 1][..j] == entries[..j];
      assert agentRows[..j + 1][..j] == agentRows[..j];
      j := j + 1;
    }
    assert entries[..j] == entries;
    assert agentRows[..j] == agentRows;
  }

  /**
   * Phase A of ingestion. Artists are merged by name in row order and their
   * names returned in that order; then, for every agent row, the agent is
   * merged by name and linked by MANAGED to the artists (of the whole graph
   * as it stands after the artist loop) whose name matches ignoring case.
   */
  method LoadArtistsAndSalesAgents(g: GraphStore, artistRows: seq<ArtistRow>, agentRows: seq<SalesAgentRow>,
                                   embed: string -> Embedding)
    returns (artistNames: seq<string>)
    requires g.Valid()
    modifies g
    ensures g.Valid()
    ensures |artistNames| == |artistRows|
    ensures forall i :: 0 <= i < |artistRows| ==> artistNames[i] == artistRows[i].artistName
    ensures g.artists == UpsertAll(old(g.artists), ArtistEntries(artistRows, embed))
    ensures g.agents == UpsertAll(old(g.agents), AgentEntries(agentRows, embed))
    ensures g.documents == old(g.documents) && g.nextDocId == old(g.nextDocId)
    ensures |g.edges| >= |old(g.edges)| && g.edges[..|old(g.edges)|] == old(g.edges)
    ensures multiset(g.edges[|old(g.edges)|..]) == ManagedEdges(agentRows, g.artists.Keys)
  {
    artistNames := MergeArtists(g, artistRows, embed);
    var existingArtists := g.artists.Keys;
    MergeAgentsAndLink(g, agentRows, existingArtists, embed);
  }

  /**
   * Running phase A twice on unchanged source rows creates no further Artist
   * or SalesAgent node: the nodes are those of a single run, with the
   * properties the second run computed (the embedding provider may answer
   * differently the second time).
   */
  method LoadArtistsAndSalesAgentsTwice(g: GraphStore, artistRows: seq<ArtistRow>, agentRows: seq<SalesAgentRow>,
                                        embed: string -> Embedding, reembed: string -> Embedding)
    requires g.Valid()
    modifies g
    ensures g.Valid()
    ensures g.artists == UpsertAll(old(g.artists), ArtistEntries(artistRows, reembed))
    ensures g.agents == UpsertAll(old(g.agents), AgentEntries(agentRows, reembed))
    ensures g.artists.Keys == UpsertAll(old(g.artists), ArtistEntries(artistRows, embed)).Keys
    ensures g.agents.Keys == UpsertAll(old(g.agents), AgentEntries(agentRows, embed)).Keys
  {
    var _ := LoadArtistsAndSalesAgents(g, artistRows, agentRows, embed);
    var _ := LoadArtistsAndSalesAgents(g, artistRows, agentRows, reembed);
    UpsertAllOverwrites(old(g.artists), ArtistEntries(artistRows, embed), ArtistEntries(artistRows, reembed));
    UpsertAllOverwrites(old(g.agents), AgentEntries(agentRows, embed), AgentEntries(agentRows, reembed));
    UpsertAllOverwrites(old(g.artists), ArtistEntries(artistRows, reembed), ArtistEntries(artistRows, embed));
    UpsertAllOverwrites(old(g.agents), AgentEntries(agentRows, reembed), AgentEntries(agentRows, embed));
  }
}
