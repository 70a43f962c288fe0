/**
 * `Neo4jSearchEngine.find_similar_content` of generateResponse.py: the Cypher
 * search query, read as a function of the graph, followed by the list
 * comprehension that shapes its rows. The engine's fields are fixed at
 * construction, so the whole operation is a function of the graph snapshot,
 * the query embedding, the threshold and the limit.
 *
 * External parts are parameters: `query` is the embedding provider's answer
 * for the question (None when the provider raised), `cosine` is
 * `gds.similarity.cosine`, and `scan` is the order in which Neo4j enumerates
 * the Artist nodes.
 */
module Retrieval {
  import opened Wrappers
  import opened Similarity
  import opened Graph

  /** Default `similarity_threshold` of `find_similar_content`. */
  const DefaultSimilarityThreshold: real := 0.7

  /** Default `limit` of `find_similar_content`. */
  const DefaultLimit: int := 5

  /** A map `{agent_name: s.name, agent_similarity: ...}` collected by the query; the name is null without an agent. */
  datatype AgentEntry = AgentEntry(agentName: Option<string>, agentSimilarity: real)

  /** A map `{text: d.text, page: d.page_number, similarity: ...}` collected by the query; text and page are null without a document. */
  datatype DocEntry = DocEntry(text: Option<string>, page: Option<nat>, similarity: real)

  /** A row returned by the search query. */
  datatype QueryRow = QueryRow(artistName: string, artistRevenue: real, artistSimilarity: real,
                               managingAgents: seq<AgentEntry>, relatedDocuments: seq<DocEntry>)

  /** The `artist` part of a result. */
  datatype ArtistResult = ArtistResult(name: string, revenue: real, relevanceScore: real)

  /** An element of a result's `sales_agents`. */
  datatype AgentResult = AgentResult(name: string, relevanceScore: real)

  /** One element of the list `find_similar_content` returns. */
  datatype SearchResult = SearchResult(artist: ArtistResult, salesAgents: seq<AgentResult>, supportingDocuments: seq<DocEntry>)

  /** `COLLECT(DISTINCT ...)`: the first occurrence of every value, in order. */
  function Distinct<T(==,!new)>(s: seq<T>): (r: seq<T>)
    ensures forall x :: x in r <==> x in s
    ensures forall i, j :: 0 <= i < j < |r| ==> r[i] != r[j]
    decreases |s|
  {
    if s == [] then []
    else
      var init := Distinct(s[..|s| - 1]);
      var last := s[|s| - 1];
      assert forall x :: x in s <==> x in s[..|s| - 1] || x == last;
      if last in s[..|s| - 1] then init else init + [last]
  }

  /** The names of the agents `s` with `(s:SalesAgent)-[:MANAGED]->(a)` for the artist `a`, in relationship order. */
  function ManagersOf(edges: seq<Edge>, agents: map<string, AgentNode>, artist: string): (r: seq<string>)
    ensures forall n :: n in r <==> n in agents && Managed(n, artist) in edges
    decreases |edges|
  {
    if edges == [] then []
    else
      var e := edges[0];
      var rest := ManagersOf(edges[1..], agents, artist);
      assert forall x :: x in edges <==> x == e || x in edges[1..];
      if e.Managed? && e.artist == artist && e.agent in agents then [e.agent] + rest else rest
  }

  /** The ids of the documents `d` with `(d:Document)-[:MENTIONS]->(a)` for the artist `a`, in relationship order. */
  function MentioningDocs(edges: seq<Edge>, docs: map<DocId, DocumentNode>, artist: string): (r: seq<DocId>)
    ensures forall d :: d in r <==> d in docs && MentionsArtist(d, artist) in edges
    decreases |edges|
  {
    if edges == [] then []
    else
      var e := edges[0];
      var rest := MentioningDocs(edges[1..], docs, artist);
      assert forall x :: x in edges <==> x == e || x in edges[1..];
      if e.MentionsArtist? && e.artist == artist && e.doc in docs then [e.doc] + rest else rest
  }

  /** One collected map per managing agent name, in order. */
  function AgentEntriesOf(names: seq<string>, agents: map<string, AgentNode>, q: Embedding, cosine: (Embedding, Embedding) -> real): (r: seq<AgentEntry>)
    requires forall n :: n in names ==> n in agents
    ensures |r| == |names|
    ensures forall n :: n in names ==> AgentEntry(Some(n), cosine(agents[n].embedding, q)) in r
    ensures forall e :: e in r ==>
              e.agentName.Some? && e.agentName.value in names && e.agentSimilarity == cosine(agents[e.agentName.value].embedding, q)
    decreases |names|
  {
    if names == [] then []
    else [AgentEntry(Some(names[0]), cosine(agents[names[0]].embedding, q))] + AgentEntriesOf(names[1..], agents, q, cosine)
  }

  /**
   * The `managing_agents` column for artist `artist`: one entry per distinct
   * managing agent with its similarity to the query, or the single null
   * placeholder with similarity 0 when no agent manages the artist.
   */
  function ManagingAgents(s: Snapshot, artist: string, q: Embedding, cosine: (Embedding, Embedding) -> real): (r: seq<AgentEntry>)
    ensures forall n, x :: AgentEntry(Some(n), x) in r ==>
              n in s.agents && Managed(n, artist) in s.edges && x == cosine(s.agents[n].embedding, q)
    ensures forall n :: n in s.agents && Managed(n, artist) in s.edges ==>
              AgentEntry(Some(n), cosine(s.agents[n].embedding, q)) in r
    ensures forall e :: e in r && e.agentName.None? ==> r == [AgentEntry(None, 0.0)]
    ensures forall i, j :: 0 <= i < j < |r| ==> r[i] != r[j]
  {
    var entries := AgentEntriesOf(ManagersOf(s.edges, s.agents, artist), s.agents, q, cosine);
    if entries == [] then [AgentEntry(None, 0.0)] else Distinct(entries)
  }

  /** An artist that no agent manages gets the single null entry with similarity 0. */
  lemma ManagingAgentsNone(s: Snapshot, artist: string, q: Embedding, cosine: (Embedding, Embedding) -> real)
    requires forall n :: n in s.agents ==> Managed(n, artist) !in s.edges
    ensures ManagingAgents(s, artist, q, cosine) == [AgentEntry(None, 0.0)]
  {
  }

  /** The collected map for a document node. */
  function DocEntryOf(node: DocumentNode, q: Embedding, cosine: (Embedding, Embedding) -> real): DocEntry
    requires node.embedding.Some?
  {
    DocEntry(Some(node.text), Some(node.pageNumber), cosine(node.embedding.value, q))
  }

  /** One collected map per document id, in order. */
  function DocEntriesOf(ids: seq<DocId>, docs: map<DocId, DocumentNode>, q: Embedding, cosine: (Embedding, Embedding) -> real): (r: seq<DocEntry>)
    requires forall d :: d in ids ==> d in docs && docs[d].embedding.Some?
    ensures |r| == |ids|
    ensures forall d :: d in ids ==> DocEntryOf(docs[d], q, cosine) in r
    ensures forall e :: e in r ==> exists d :: d in ids && e == DocEntryOf(docs[d], q, cosine)
    decreases |ids|
  {
    if ids == [] then []
    else [DocEntryOf(docs[ids[0]], q, cosine)] + DocEntriesOf(ids[1..], docs, q, cosine)
  }

  /**
   * The `related_documents` column for artist `artist`: one entry per distinct
   * (text, page, similarity) of the documents that mention the artist, or the
   * single null placeholder with similarity 0 when none does. None when a
   * mentioning document has no vector to compare: the query then fails.
   */
  function RelatedDocuments(s: Snapshot, artist: string, q: Embedding, cosine: (Embedding, Embedding) -> real): (r: Option<seq<DocEntry>>)
    ensures r.None? <==> exists d :: d in s.documents && MentionsArtist(d, artist) in s.edges && s.documents[d].embedding.None?
    ensures r.Some? ==> forall d :: d in s.documents && MentionsArtist(d, artist) in s.edges ==>
              DocEntryOf(s.documents[d], q, cosine) in r.value
    ensures r.Some? ==> forall e :: e in r.value && e.text.Some? ==>
              exists d :: d in s.documents && MentionsArtist(d, artist) in s.edges && e == DocEntryOf(s.documents[d], q, cosine)
    ensures r.Some? ==> forall e :: e in r.value && e.text.None? ==> r.value == [DocEntry(None, None, 0.0)]
    ensures r.Some? ==> forall i, j :: 0 <= i < j < |r.value| ==> r.value[i] != r.value[j]
  {
    var ids := MentioningDocs(s.edges, s.documents, artist);
    if exists d :: d in ids && s.documents[d].embedding.None? then
      None
    else
      var entries := DocEntriesOf(ids, s.documents, q, cosine);
      Some(if entries == [] then [DocEntry(None, None, 0.0)] else Distinct(entries))
  }

  /** An artist that no Document mentions gets the single null entry with similarity 0. */
  lemma RelatedDocumentsNone(s: Snapshot, artist: string, q: Embedding, cosine: (Embedding, Embedding) -> real)
    requires forall d :: d in s.documents ==> MentionsArtist(d, artist) !in s.edges
    ensures RelatedDocuments(s, artist, q, cosine) == Some([DocEntry(None, None, 0.0)])
  {
  }

  /** `scan` enumerates every Artist node once: the order in which the query's MATCH visits them. */
  ghost predicate IsScanOf(scan: seq<string>, artists: map<string, ArtistNode>)
  {
    (forall n :: n in scan <==> n in artists) &&
    (forall i, j :: 0 <= i < j < |scan| ==> scan[i] != scan[j])
  }

  /** `WHERE similarity > $similarity_threshold`. */
  predicate Qualifies(s: Snapshot, artist: string, q: Embedding, cosine: (Embedding, Embedding) -> real, threshold: real)
  {
    artist in s.artists && cosine(s.artists[artist].embedding, q) > threshold
  }

  /** The artists that pass the similarity filter, in scan order. */
  function QualifyingArtists(s: Snapshot, scan: seq<string>, q: Embedding, cosine: (Embedding, Embedding) -> real, threshold: real): (r: seq<string>)
    ensures forall n :: n in r <==> n in scan && Qualifies(s, n, q, cosine, threshold)
    ensures (forall i, j :: 0 <= i < j < |scan| ==> scan[i] != scan[j]) ==>
              forall i, j :: 0 <= i < j < |r| ==> r[i] != r[j]
    decreases |scan|
  {
    if scan == [] then []
    else
      var rest := QualifyingArtists(s, scan[1..], q, cosine, threshold);
      assert forall x :: x in scan <==> x == scan[0] || x in scan[1..];
      if Qualifies(s, scan[0], q, cosine, threshold) then [scan[0]] + rest else rest
  }

  /** The row the query returns for a qualifying artist, given its documents column. */
  function RowFor(s: Snapshot, artist: string, q: Embedding, cosine: (Embedding, Embedding) -> real, docs: seq<DocEntry>): QueryRow
    requires artist in s.artists
  {
    QueryRow(artist, s.artists[artist].revenue, cosine(s.artists[artist].embedding, q), ManagingAgents(s, artist, q, cosine), docs)
  }

  /** `row` is the query's row for the artist it names. */
  predicate IsRowOf(s: Snapshot, row: QueryRow, q: Embedding, cosine: (Embedding, Embedding) -> real)
  {
    row.artistName in s.artists &&
    RelatedDocuments(s, row.artistName, q, cosine).Some? &&
    row == RowFor(s, row.artistName, q, cosine, RelatedDocuments(s, row.artistName, q, cosine).value)
  }

  /** The rows of the given artists, in order, before ORDER BY; None when a documents column fails. */
  function RowsFor(s: Snapshot, artists: seq<string>, q: Embedding, cosine: (Embedding, Embedding) -> real): (r: Option<seq<QueryRow>>)
    requires forall n :: n in artists ==> n in s.artists
    ensures r.None? <==> exists n :: n in artists && RelatedDocuments(s, n, q, cosine).None?
    ensures r.Some? ==> |r.value| == |artists|
    ensures r.Some? ==> forall i :: 0 <= i < |artists| ==>
              r.value[i].artistName == artists[i] && r.value[i].artistSimilarity == cosine(s.artists[artists[i]].embedding, q)
    decreases |artists|
  {
    if artists == [] then Some([])
    else
      var docs := RelatedDocuments(s, artists[0], q, cosine);
      var rest := RowsFor(s, artists[1..], q, cosine);
      assert forall x :: x in artists <==> x == artists[0] || x in artists[1..];
      if docs.None? || rest.None? then None
      else Some([RowFor(s, artists[0], q, cosine, docs.value)] + rest.value)
  }

  /** Each row of `RowsFor` is the row of the artist it names. */
  lemma {:induction false} RowsForAreRows(s: Snapshot, artists: seq<string>, q: Embedding, cosine: (Embedding, Embedding) -> real)
    requires forall n :: n in artists ==> n in s.artists
    requires RowsFor(s, artists, q, cosine).Some?
    ensures forall row :: row in RowsFor(s, artists, q, cosine).value ==> IsRowOf(s, row, q, cosine)
    decreases |artists|
  {
    if artists != [] {
      RowsForAreRows(s, artists[1..], q, cosine);
    }
  }

  /** `ORDER BY similarity DESC` has been applied. */
  predicate SortedBySimilarity(rows: seq<QueryRow>)
  {
    forall i, j :: 0 <= i < j < |rows| ==> rows[i].artistSimilarity >= rows[j].artistSimilarity
  }

  function InsertBySimilarity(row: QueryRow, rows: seq<QueryRow>): (r: seq<QueryRow>)
    requires SortedBySimilarity(rows)
    ensures SortedBySimilarity(r)
    ensures forall x :: x in r ==> x == row || x in rows
    ensures multiset(r) == multiset(rows) + multiset{row}
    decreases |rows|
  {
    if rows == [] || row.artistSimilarity >= rows[0].artistSimilarity then [row] + rows
    else
      var rest := InsertBySimilarity(row, rows[1..]);
      HeadBoundsInsertion(rows, row, rest);
      SortedCons(rows[0], rest);
      assert rows == [rows[0]] + rows[1..];
      [rows[0]] + rest
  }

  /** The head of a sorted sequence bounds whatever is built from its tail and a less similar row. */
  lemma HeadBoundsInsertion(rows: seq<QueryRow>, row: QueryRow, rest: seq<QueryRow>)
    requires rows != [] && SortedBySimilarity(rows)
    requires row.artistSimilarity < rows[0].artistSimilarity
    requires forall x :: x in rest ==> x == row || x in rows[1..]
    ensures forall k :: 0 <= k < |rest| ==> rows[0].artistSimilarity >= rest[k].artistSimilarity
  {
    forall k | 0 <= k < |rest| ensures rows[0].artistSimilarity >= rest[k].artistSimilarity {
      assert rest[k] in rest;
      if rest[k] != row {
        var m :| 0 <= m < |rows[1..]| && rows[1..][m] == rest[k];
        assert rows[m + 1] == rest[k];
      }
    }
  }

  /** A row at least as similar as every row of a sorted sequence can go in front of it. */
  lemma SortedCons(head: QueryRow, rest: seq<QueryRow>)
    requires SortedBySimilarity(rest)
    requires forall k :: 0 <= k < |rest| ==> head.artistSimilarity >= rest[k].artistSimilarity
    ensures SortedBySimilarity([head] + rest)
  {
    var r := [head] + rest;
    forall i, j | 0 <= i < j < |r| ensures r[i].artistSimilarity >= r[j].artistSimilarity {
      if i == 0 {
        assert r[j] == rest[j - 1];
      } else {
        assert r[i] == rest[i - 1] && r[j] == rest[j - 1];
      }
    }
  }

  /** `ORDER BY similarity DESC`: a permutation of the rows, by non-increasing similarity. */
  function SortBySimilarity(rows: seq<QueryRow>): (r: seq<QueryRow>)
    ensures SortedBySimilarity(r)
    ensures multiset(r) == multiset(rows)
    decreases |rows|
  {
    if rows == [] then []
    else
      assert rows == [rows[0]] + rows[1..];
      InsertBySimilarity(rows[0], SortBySimilarity(rows[1..]))
  }

  function Min(a: int, b: int): int
  {
    if a <= b then a else b
  }

  /**
   * `ORDER BY similarity DESC LIMIT $limit`: the `limit` most similar rows,
   * most similar first; a row left out is no more similar than any row kept.
   */
  function TopRows(rows: seq<QueryRow>, limit: nat): (r: seq<QueryRow>)
    ensures |r| == Min(limit, |rows|)
    ensures SortedBySimilarity(r)
    ensures multiset(r) <= multiset(rows)
    ensures forall x, i :: x in rows && x !in r && 0 <= i < |r| ==> r[i].artistSimilarity >= x.artistSimilarity
  {
    var sorted := SortBySimilarity(rows);
    var k := Min(limit, |rows|);
    LeftOutNoGreater(rows, sorted, k);
    sorted[..k]
  }

  /** The first `k` rows of a sorted permutation of `rows`. */
  lemma LeftOutNoGreater(rows: seq<QueryRow>, sorted: seq<QueryRow>, k: nat)
    requires SortedBySimilarity(sorted)
    requires multiset(sorted) == multiset(rows)
    requires k <= |rows|
    ensures |sorted| == |rows|
    ensures SortedBySimilarity(sorted[..k])
    ensures multiset(sorted[..k]) <= multiset(rows)
    ensures forall x, i :: x in rows && x !in sorted[..k] && 0 <= i < k ==> sorted[i].artistSimilarity >= x.artistSimilarity
  {
    assert |sorted| == |multiset(sorted)| == |multiset(rows)| == |rows|;
    assert sorted == sorted[..k] + sorted[k..];
    forall x, i | x in rows && x !in sorted[..k] && 0 <= i < k
      ensures sorted[i].artistSimilarity >= x.artistSimilarity
    {
      assert x in multiset(sorted);
      var p :| 0 <= p < |sorted| && sorted[p] == x;
    }
  }

  /**
   * The rows of the search query, after `ORDER BY similarity DESC LIMIT $limit`;
   * None when the query fails (a negative limit, or a documents column that
   * cannot be computed).
   */
  function SearchQuery(s: Snapshot, scan: seq<string>, q: Embedding, cosine: (Embedding, Embedding) -> real, threshold: real, limit: int): (r: Option<seq<QueryRow>>)
    requires forall n :: n in scan ==> n in s.artists
    ensures r.Some? ==> |r.value| == Min(limit, |QualifyingArtists(s, scan, q, cosine, threshold)|)
    ensures r.Some? ==> SortedBySimilarity(r.value)
  {
    if limit < 0 then None
    else match RowsFor(s, QualifyingArtists(s, scan, q, cosine, threshold), q, cosine)
      case None => None
      case Some(rows) => Some(TopRows(rows, limit))
  }

  /** The query fails exactly for a negative limit or an artist above the threshold whose documents column fails. */
  lemma SearchQueryFails(s: Snapshot, scan: seq<string>, q: Embedding, cosine: (Embedding, Embedding) -> real, threshold: real, limit: int)
    requires forall n :: n in scan ==> n in s.artists
    ensures SearchQuery(s, scan, q, cosine, threshold, limit).None? <==>
              limit < 0 || exists n :: n in scan && Qualifies(s, n, q, cosine, threshold) && RelatedDocuments(s, n, q, cosine).None?
  {
    var names := QualifyingArtists(s, scan, q, cosine, threshold);
    assert forall n :: n in names <==> n in scan && Qualifies(s, n, q, cosine, threshold);
  }

  /** Every row the query returns is the row of an artist above the threshold. */
  lemma SearchQueryRows(s: Snapshot, scan: seq<string>, q: Embedding, cosine: (Embedding, Embedding) -> real, threshold: real, limit: int)
    requires forall n :: n in scan ==> n in s.artists
    requires SearchQuery(s, scan, q, cosine, threshold, limit).Some?
    ensures forall row :: row in SearchQuery(s, scan, q, cosine, threshold, limit).value ==>
              IsRowOf(s, row, q, cosine) && Qualifies(s, row.artistName, q, cosine, threshold)
  {
    var names := QualifyingArtists(s, scan, q, cosine, threshold);
    var rows := RowsFor(s, names, q, cosine).value;
    var top := TopRows(rows, limit);
    RowsForAreRows(s, names, q, cosine);
    forall row | row in top ensures IsRowOf(s, row, q, cosine) && Qualifies(s, row.artistName, q, cosine, threshold) {
      assert row in multiset(rows);
      var m :| 0 <= m < |rows| && rows[m] == row;
      assert names[m] in names;
    }
  }

  /** A sequence without repeats holds every value at most once. */
  lemma {:induction false} DistinctMultiplicity<T>(b: seq<T>, x: T)
    requires forall i, j :: 0 <= i < j < |b| ==> b[i] != b[j]
    ensures multiset(b)[x] <= 1
    decreases |b|
  {
    if b != [] {
      assert b == [b[0]] + b[1..];
      DistinctMultiplicity(b[1..], x);
      if x == b[0] {
        assert x !in b[1..];
      }
    }
  }

  /** A sub-multiset of a sequence without repeats has no repeats. */
  lemma SubMultisetKeepsDistinct<T>(a: seq<T>, b: seq<T>)
    requires multiset(a) <= multiset(b)
    requires forall i, j :: 0 <= i < j < |b| ==> b[i] != b[j]
    ensures forall i, j :: 0 <= i < j < |a| ==> a[i] != a[j]
  {
    forall i, j | 0 <= i < j < |a| ensures a[i] != a[j] {
      if a[i] == a[j] {
        assert a == a[..j] + a[j..];
        assert a[i] in a[..j];
        assert a[j] in a[j..];
        assert multiset(a)[a[i]] == multiset(a[..j])[a[i]] + multiset(a[j..])[a[i]];
        DistinctMultiplicity(b, a[i]);
        assert false;
      }
    }
  }

  /** Rows with distinct artist names keep them distinct in any sub-multiset. */
  lemma DistinctNamesKept(rows: seq<QueryRow>, top: seq<QueryRow>)
    requires forall i, j :: 0 <= i < j < |rows| ==> rows[i].artistName != rows[j].artistName
    requires multiset(top) <= multiset(rows)
    ensures forall i, j :: 0 <= i < j < |top| ==> top[i].artistName != top[j].artistName
  {
    SubMultisetKeepsDistinct(top, rows);
    forall i, j | 0 <= i < j < |top| ensures top[i].artistName != top[j].artistName {
      assert top[i] in multiset(rows) && top[j] in multiset(rows);
      var mi :| 0 <= mi < |rows| && rows[mi] == top[i];
      var mj :| 0 <= mj < |rows| && rows[mj] == top[j];
    }
  }

  /**
   * When the scan visits every artist once, the query returns each artist at
   * most once, and an artist that qualifies but is not returned is no more
   * similar than any artist that is.
   */
  lemma SearchQueryTopK(s: Snapshot, scan: seq<string>, q: Embedding, cosine: (Embedding, Embedding) -> real, threshold: real, limit: int)
    requires IsScanOf(scan, s.artists)
    requires SearchQuery(s, scan, q, cosine, threshold, limit).Some?
    ensures var rows := SearchQuery(s, scan, q, cosine, threshold, limit).value;
      forall i, j :: 0 <= i < j < |rows| ==> rows[i].artistName != rows[j].artistName
    ensures var rows := SearchQuery(s, scan, q, cosine, threshold, limit).value;
      forall n, i :: Qualifies(s, n, q, cosine, threshold) && (forall k :: 0 <= k < |rows| ==> rows[k].artistName != n) && 0 <= i < |rows| ==>
        rows[i].artistSimilarity >= cosine(s.artists[n].embedding, q)
  {
    var names := QualifyingArtists(s, scan, q, cosine, threshold);
    var rows := RowsFor(s, names, q, cosine).value;
    var top := TopRows(rows, limit);
    assert SearchQuery(s, scan, q, cosine, threshold, limit).value == top;
    DistinctNamesKept(rows, top);
    forall n, i | Qualifies(s, n, q, cosine, threshold) && (forall k :: 0 <= k < |top| ==> top[k].artistName != n) && 0 <= i < |top|
      ensures top[i].artistSimilarity >= cosine(s.artists[n].embedding, q)
    {
      var m :| 0 <= m < |names| && names[m] == n;
      assert rows[m] in rows;
      assert forall k :: 0 <= k < |top| ==> top[k] != rows[m];
    }
  }

  /** The comprehension over `managing_agents`: entries whose `agent_name` is not null. */
  function NamedAgents(entries: seq<AgentEntry>): (r: seq<AgentResult>)
    ensures forall a :: a in r <==> AgentEntry(Some(a.name), a.relevanceScore) in entries
    ensures (forall i, j :: 0 <= i < j < |entries| ==> entries[i] != entries[j]) ==>
              forall i, j :: 0 <= i < j < |r| ==> r[i] != r[j]
    decreases |entries|
  {
    if entries == [] then []
    else
      var rest := NamedAgents(entries[1..]);
      assert forall x :: x in entries <==> x == entries[0] || x in entries[1..];
      match entries[0].agentName
      case None => rest
      case Some(n) => [AgentResult(n, entries[0].agentSimilarity)] + rest
  }

  /** The comprehension over `related_documents`: entries whose `text` is not null. */
  function DocumentsWithText(entries: seq<DocEntry>): (r: seq<DocEntry>)
    ensures forall e :: e in r <==> e in entries && e.text.Some?
    ensures (forall i, j :: 0 <= i < j < |entries| ==> entries[i] != entries[j]) ==>
              forall i, j :: 0 <= i < j < |r| ==> r[i] != r[j]
    decreases |entries|
  {
    if entries == [] then []
    else
      var rest := DocumentsWithText(entries[1..]);
      assert forall x :: x in entries <==> x == entries[0] || x in entries[1..];
      if entries[0].text.Some? then [entries[0]] + rest else rest
  }

  /** The dictionary built for one row. */
  function Shape(row: QueryRow): SearchResult
  {
    SearchResult(ArtistResult(row.artistName, row.artistRevenue, row.artistSimilarity),
                 NamedAgents(row.managingAgents), DocumentsWithText(row.relatedDocuments))
  }

  /** The list comprehension over the query's records: one result per row, in row order. */
  function ShapeAll(rows: seq<QueryRow>): (r: seq<SearchResult>)
    ensures |r| == |rows|
    ensures forall i :: 0 <= i < |rows| ==>
              r[i].artist == ArtistResult(rows[i].artistName, rows[i].artistRevenue, rows[i].artistSimilarity)
  {
    seq(|rows|, i requires 0 <= i < |rows| => Shape(rows[i]))
  }

  /**
   * `find_similar_content(query, similarity_threshold, limit)`: the artists
   * whose embedding is more similar to the query than the threshold, most
   * similar first and at most `limit` of them, each with its managing agents
   * and the documents that mention it. Every failure (no query embedding, a
   * query error) yields the empty list.
   */
  function FindSimilarContent(s: Snapshot, scan: seq<string>, query: Option<Embedding>, cosine: (Embedding, Embedding) -> real,
                              threshold: real, limit: int): (r: seq<SearchResult>)
    requires IsScanOf(scan, s.artists)
    ensures query.None? || limit < 0 ==> r == []
    ensures limit >= 0 ==> |r| <= limit
    ensures forall i :: 0 <= i < |r| ==>
              query.Some? && Qualifies(s, r[i].artist.name, query.value, cosine, threshold) &&
              r[i].artist == ArtistResult(r[i].artist.name, s.artists[r[i].artist.name].revenue,
                                          cosine(s.artists[r[i].artist.name].embedding, query.value))
    ensures forall i, j :: 0 <= i < j < |r| ==> r[i].artist.relevanceScore >= r[j].artist.relevanceScore
  {
    match query
    case None => []
    case Some(q) =>
      match SearchQuery(s, scan, q, cosine, threshold, limit)
      case None => []
      case Some(rows) =>
        SearchQueryRows(s, scan, q, cosine, threshold, limit);
        ShapeAll(rows)
  }

  /**
   * The query fails, and the empty list is returned, exactly when there is
   * no query embedding, the limit is negative, or an artist above the
   * threshold is mentioned by a document without an embedding.
   */
  lemma FindSimilarContentFails(s: Snapshot, scan: seq<string>, query: Option<Embedding>, cosine: (Embedding, Embedding) -> real,
                                threshold: real, limit: int)
    requires IsScanOf(scan, s.artists)
    requires query.None? || limit < 0 ||
             exists n, d :: Qualifies(s, n, query.value, cosine, threshold) && d in s.documents &&
               MentionsArtist(d, n) in s.edges && s.documents[d].embedding.None?
    ensures FindSimilarContent(s, scan, query, cosine, threshold, limit) == []
  {
    if query.Some? && limit >= 0 {
      SearchQueryFails(s, scan, query.value, cosine, threshold, limit);
      var n, d :| Qualifies(s, n, query.value, cosine, threshold) && d in s.documents &&
        MentionsArtist(d, n) in s.edges && s.documents[d].embedding.None?;
      assert n in scan && RelatedDocuments(s, n, query.value, cosine).None?;
    }
  }

  /**
   * The query succeeds when there is a query embedding, the limit is not
   * negative and every document mentioning an artist above the threshold has
   * an embedding; the results are then the shaped query rows.
   */
  lemma FindSimilarContentSucceeds(s: Snapshot, scan: seq<string>, q: Embedding, cosine: (Embedding, Embedding) -> real,
                                   threshold: real, limit: int)
    requires IsScanOf(scan, s.artists)
    requires limit >= 0
    requires forall n, d :: Qualifies(s, n, q, cosine, threshold) && d in s.documents && MentionsArtist(d, n) in s.edges ==>
               s.documents[d].embedding.Some?
    ensures SearchQuery(s, scan, q, cosine, threshold, limit).Some?
    ensures FindSimilarContent(s, scan, Some(q), cosine, threshold, limit) == ShapeAll(SearchQuery(s, scan, q, cosine, threshold, limit).value)
  {
    SearchQueryFails(s, scan, q, cosine, threshold, limit);
  }

  /**
   * When the query succeeds it returns min(limit, number of artists above
   * the threshold) results; the scan holds each artist above the threshold
   * exactly once.
   */
  lemma FindSimilarContentCount(s: Snapshot, scan: seq<string>, q: Embedding, cosine: (Embedding, Embedding) -> real,
                                threshold: real, limit: int)
    requires IsScanOf(scan, s.artists)
    requires limit >= 0
    requires forall n, d :: Qualifies(s, n, q, cosine, threshold) && d in s.documents && MentionsArtist(d, n) in s.edges ==>
               s.documents[d].embedding.Some?
    ensures |FindSimilarContent(s, scan, Some(q), cosine, threshold, limit)| == Min(limit, |QualifyingArtists(s, scan, q, cosine, threshold)|)
    ensures forall n :: n in QualifyingArtists(s, scan, q, cosine, threshold) <==> Qualifies(s, n, q, cosine, threshold)
    ensures forall i, j :: 0 <= i < j < |QualifyingArtists(s, scan, q, cosine, threshold)| ==>
              QualifyingArtists(s, scan, q, cosine, threshold)[i] != QualifyingArtists(s, scan, q, cosine, threshold)[j]
  {
    FindSimilarContentSucceeds(s, scan, q, cosine, threshold, limit);
  }

  /**
   * When the query succeeds each artist is returned at most once, and no
   * artist above the threshold that is left out is more similar than one
   * that is returned.
   */
  lemma FindSimilarContentTopK(s: Snapshot, scan: seq<string>, q: Embedding, cosine: (Embedding, Embedding) -> real,
                               threshold: real, limit: int)
    requires IsScanOf(scan, s.artists)
    requires limit >= 0
    requires forall n, d :: Qualifies(s, n, q, cosine, threshold) && d in s.documents && MentionsArtist(d, n) in s.edges ==>
               s.documents[d].embedding.Some?
    ensures var r := FindSimilarContent(s, scan, Some(q), cosine, threshold, limit);
      forall i, j :: 0 <= i < j < |r| ==> r[i].artist.name != r[j].artist.name
    ensures var r := FindSimilarContent(s, scan, Some(q), cosine, threshold, limit);
      forall n, i :: Qualifies(s, n, q, cosine, threshold) && (forall k :: 0 <= k < |r| ==> r[k].artist.name != n) && 0 <= i < |r| ==>
        r[i].artist.relevanceScore >= cosine(s.artists[n].embedding, q)
  {
    FindSimilarContentSucceeds(s, scan, q, cosine, threshold, limit);
    var rows := SearchQuery(s, scan, q, cosine, threshold, limit).value;
    var r := ShapeAll(rows);
    SearchQueryTopK(s, scan, q, cosine, threshold, limit);
    assert forall k :: 0 <= k < |r| ==> r[k].artist.name == rows[k].artistName;
  }

  /**
   * The `sales_agents` of a result are exactly the agents with a MANAGED
   * relationship to its artist, each once, with its similarity to the query;
   * an artist that no agent manages has none.
   */
  lemma FindSimilarContentAgents(s: Snapshot, scan: seq<string>, query: Option<Embedding>, cosine: (Embedding, Embedding) -> real,
                                 threshold: real, limit: int, i: int)
    requires IsScanOf(scan, s.artists)
    requires 0 <= i < |FindSimilarContent(s, scan, query, cosine, threshold, limit)|
    ensures var r := FindSimilarContent(s, scan, query, cosine, threshold, limit)[i];
      query.Some? &&
      (forall a :: a in r.salesAgents <==>
         a.name in s.agents && Managed(a.name, r.artist.name) in s.edges && a.relevanceScore == cosine(s.agents[a.name].embedding, query.value)) &&
      (forall j, k :: 0 <= j < k < |r.salesAgents| ==> r.salesAgents[j].name != r.salesAgents[k].name) &&
      ((forall n :: n in s.agents ==> Managed(n, r.artist.name) !in s.edges) ==> r.salesAgents == [])
  {
    var q := query.value;
    var rows := SearchQuery(s, scan, q, cosine, threshold, limit).value;
    SearchQueryRows(s, scan, q, cosine, threshold, limit);
    var row := rows[i];
    assert row in rows;
    var r := FindSimilarContent(s, scan, query, cosine, threshold, limit)[i];
    assert r == Shape(row);
    var entries := ManagingAgents(s, row.artistName, q, cosine);
    assert r.salesAgents == NamedAgents(entries);
    forall j, k | 0 <= j < k < |r.salesAgents| ensures r.salesAgents[j].name != r.salesAgents[k].name {
      assert r.salesAgents[j] in r.salesAgents && r.salesAgents[k] in r.salesAgents;
    }
    if r.salesAgents != [] {
      assert r.salesAgents[0] in r.salesAgents;
    }
  }

  /**
   * The `supporting_documents` of a result are exactly the documents that
   * mention its artist, as (text, page, similarity), each such triple once;
   * none has a null text.
   */
  lemma FindSimilarContentDocuments(s: Snapshot, scan: seq<string>, query: Option<Embedding>, cosine: (Embedding, Embedding) -> real,
                                    threshold: real, limit: int, i: int)
    requires IsScanOf(scan, s.artists)
    requires 0 <= i < |FindSimilarContent(s, scan, query, cosine, threshold, limit)|
    ensures var r := FindSimilarContent(s, scan, query, cosine, threshold, limit)[i];
      query.Some? &&
      (forall d :: d in s.documents && MentionsArtist(d, r.artist.name) in s.edges ==>
         s.documents[d].embedding.Some? && DocEntryOf(s.documents[d], query.value, cosine) in r.supportingDocuments) &&
      (forall e :: e in r.supportingDocuments ==>
         e.text.Some? &&
         exists d :: d in s.documents && MentionsArtist(d, r.artist.name) in s.edges &&
                     s.documents[d].embedding.Some? && e == DocEntryOf(s.documents[d], query.value, cosine)) &&
      (forall j, k :: 0 <= j < k < |r.supportingDocuments| ==> r.supportingDocuments[j] != r.supportingDocuments[k])
  {
    var q := query.value;
    var rows := SearchQuery(s, scan, q, cosine, threshold, limit).value;
    SearchQueryRows(s, scan, q, cosine, threshold, limit);
    var row := rows[i];
    assert row in rows;
    var r := FindSimilarContent(s, scan, query, cosine, threshold, limit)[i];
    assert r == Shape(row);
    var docs := RelatedDocuments(s, row.artistName, q, cosine);
    assert r.supportingDocuments == DocumentsWithText(docs.value);
  }

  /** With no artist above the threshold, the result is empty. */
  lemma FindSimilarContentNoneAbove(s: Snapshot, scan: seq<string>, query: Option<Embedding>,
                                    cosine: (Embedding, Embedding) -> real, threshold: real, limit: int)
    requires IsScanOf(scan, s.artists)
    requires query.Some? ==> forall n :: n in s.artists ==> cosine(s.artists[n].embedding, query.value) <= threshold
    ensures FindSimilarContent(s, scan, query, cosine, threshold, limit) == []
  {
  }

  /** Artists Iron Maiden (revenue 100) and U2 (revenue 90), and agent Alice who manages Iron Maiden. */
  function ExampleGraph(): Snapshot
  {
    Snapshot(map["Iron Maiden" := ArtistNode(100.0, [1.0]), "U2" := ArtistNode(90.0, [0.5])],
             map["Alice" := AgentNode([0.25])],
             map[],
             [Managed("Alice", "Iron Maiden")])
  }

  /** An arbitrary similarity chosen for the example (not a cosine): the first vector's first component. */
  function ExampleCosine(u: Embedding, v: Embedding): real
  {
    if |u| == 1 then u[0] else 0.0
  }

  function ExampleRowIronMaiden(): QueryRow
  {
    QueryRow("Iron Maiden", 100.0, 1.0, [AgentEntry(Some("Alice"), 0.25)], [DocEntry(None, None, 0.0)])
  }

  function ExampleRowU2(): QueryRow
  {
    QueryRow("U2", 90.0, 0.5, [AgentEntry(None, 0.0)], [DocEntry(None, None, 0.0)])
  }

  lemma ExampleManagers()
    ensures ManagersOf(ExampleGraph().edges, ExampleGraph().agents, "Iron Maiden") == ["Alice"]
    ensures ManagersOf(ExampleGraph().edges, ExampleGraph().agents, "U2") == []
  {
    var s := ExampleGraph();
    assert s.edges[1..] == [];
  }

  lemma ExampleAgents()
    ensures ManagingAgents(ExampleGraph(), "Iron Maiden", [1.0], ExampleCosine) == [AgentEntry(Some("Alice"), 0.25)]
    ensures ManagingAgents(ExampleGraph(), "U2", [1.0], ExampleCosine) == [AgentEntry(None, 0.0)]
  {
    var s := ExampleGraph();
    ExampleManagers();
    var e := AgentEntry(Some("Alice"), 0.25);
    assert AgentEntriesOf(["Alice"], s.agents, [1.0], ExampleCosine) == [e];
    assert Distinct([e]) == [e] by {
      assert [e][..0] == [];
    }
  }

  lemma ExampleDocuments(artist: string)
    ensures RelatedDocuments(ExampleGraph(), artist, [1.0], ExampleCosine) == Some([DocEntry(None, None, 0.0)])
  {
    var s := ExampleGraph();
    assert MentioningDocs(s.edges[1..], s.documents, artist) == [];
    assert MentioningDocs(s.edges, s.documents, artist) == [];
  }

  /** The Artist nodes of the example graph. */
  lemma ExampleArtists()
    ensures ExampleGraph().artists.Keys == {"Iron Maiden", "U2"}
    ensures ExampleGraph().artists["Iron Maiden"] == ArtistNode(100.0, [1.0])
    ensures ExampleGraph().artists["U2"] == ArtistNode(90.0, [0.5])
  {
  }

  lemma ExampleRowForIronMaiden()
    ensures RowFor(ExampleGraph(), "Iron Maiden", [1.0], ExampleCosine, [DocEntry(None, None, 0.0)]) == ExampleRowIronMaiden()
  {
    ExampleArtists();
    var agents := ManagingAgents(ExampleGraph(), "Iron Maiden", [1.0], ExampleCosine);
    ExampleAgents();
    assert agents == [AgentEntry(Some("Alice"), 0.25)];
  }

  lemma ExampleRowForU2()
    ensures RowFor(ExampleGraph(), "U2", [1.0], ExampleCosine, [DocEntry(None, None, 0.0)]) == ExampleRowU2()
  {
    ExampleArtists();
    var agents := ManagingAgents(ExampleGraph(), "U2", [1.0], ExampleCosine);
    ExampleAgents();
    assert agents == [AgentEntry(None, 0.0)];
  }

  /** The rows of a non-empty artist list: the first artist's row, then the others'. */
  lemma RowsForCons(s: Snapshot, artist: string, others: seq<string>, q: Embedding, cosine: (Embedding, Embedding) -> real,
                    docs: seq<DocEntry>, rest: seq<QueryRow>)
    requires artist in s.artists && forall n :: n in others ==> n in s.artists
    requires RelatedDocuments(s, artist, q, cosine) == Some(docs)
    requires RowsFor(s, others, q, cosine) == Some(rest)
    ensures RowsFor(s, [artist] + others, q, cosine) == Some([RowFor(s, artist, q, cosine, docs)] + rest)
  {
    var names := [artist] + others;
    assert names[0] == artist && names[1..] == others;
  }

  lemma ExampleRowsIronMaiden()
    ensures RowsFor(ExampleGraph(), ["Iron Maiden"], [1.0], ExampleCosine) == Some([ExampleRowIronMaiden()])
  {
    ExampleArtists();
    ExampleRowForIronMaiden();
    ExampleDocuments("Iron Maiden");
    RowsForCons(ExampleGraph(), "Iron Maiden", [], [1.0], ExampleCosine, [DocEntry(None, None, 0.0)], []);
    assert ["Iron Maiden"] + [] == ["Iron Maiden"];
    assert [ExampleRowIronMaiden()] + [] == [ExampleRowIronMaiden()];
  }

  lemma ExampleRows()
    ensures RowsFor(ExampleGraph(), ["U2", "Iron Maiden"], [1.0], ExampleCosine) == Some([ExampleRowU2(), ExampleRowIronMaiden()])
  {
    ExampleArtists();
    ExampleRowForU2();
    ExampleDocuments("U2");
    ExampleRowsIronMaiden();
    RowsForCons(ExampleGraph(), "U2", ["Iron Maiden"], [1.0], ExampleCosine, [DocEntry(None, None, 0.0)], [ExampleRowIronMaiden()]);
    assert ["U2"] + ["Iron Maiden"] == ["U2", "Iron Maiden"];
    assert [ExampleRowU2()] + [ExampleRowIronMaiden()] == [ExampleRowU2(), ExampleRowIronMaiden()];
  }

  lemma ExampleQualifying()
    ensures QualifyingArtists(ExampleGraph(), ["U2", "Iron Maiden"], [1.0], ExampleCosine, 0.0) == ["U2", "Iron Maiden"]
  {
    var scan := ["U2", "Iron Maiden"];
    assert scan[1..] == ["Iron Maiden"] && scan[1..][1..] == [];
  }

  lemma ExampleSort()
    ensures TopRows([ExampleRowU2(), ExampleRowIronMaiden()], DefaultLimit) == [ExampleRowIronMaiden(), ExampleRowU2()]
  {
    var rows := [ExampleRowU2(), ExampleRowIronMaiden()];
    assert rows[1..] == [ExampleRowIronMaiden()] && rows[1..][1..] == [];
    assert SortBySimilarity(rows[1..]) == [ExampleRowIronMaiden()];
    assert InsertBySimilarity(ExampleRowU2(), []) == [ExampleRowU2()];
  }

  lemma ExampleSearch()
    ensures SearchQuery(ExampleGraph(), ["U2", "Iron Maiden"], [1.0], ExampleCosine, 0.0, DefaultLimit)
         == Some([ExampleRowIronMaiden(), ExampleRowU2()])
  {
    ExampleQualifying();
    ExampleRows();
    ExampleSort();
  }

  lemma ExampleQualifyingDefault()
    ensures QualifyingArtists(ExampleGraph(), ["U2", "Iron Maiden"], [1.0], ExampleCosine, DefaultSimilarityThreshold) == ["Iron Maiden"]
  {
    var scan := ["U2", "Iron Maiden"];
    assert scan[1..] == ["Iron Maiden"] && scan[1..][1..] == [];
  }

  lemma ExampleSearchDefault()
    ensures SearchQuery(ExampleGraph(), ["U2", "Iron Maiden"], [1.0], ExampleCosine, DefaultSimilarityThreshold, DefaultLimit)
         == Some([ExampleRowIronMaiden()])
  {
    ExampleQualifyingDefault();
    ExampleRowsIronMaiden();
    var rows := [ExampleRowIronMaiden()];
    assert rows[1..] == [];
    assert SortBySimilarity(rows) == rows;
  }

  lemma ExampleScan()
    ensures IsScanOf(["U2", "Iron Maiden"], ExampleGraph().artists)
  {
    assert ExampleGraph().artists.Keys == {"U2", "Iron Maiden"};
  }

  lemma ExampleShape()
    ensures ShapeAll([ExampleRowIronMaiden(), ExampleRowU2()])
         == [SearchResult(ArtistResult("Iron Maiden", 100.0, 1.0), [AgentResult("Alice", 0.25)], []),
             SearchResult(ArtistResult("U2", 90.0, 0.5), [], [])]
  {
    assert NamedAgents([AgentEntry(Some("Alice"), 0.25)]) == [AgentResult("Alice", 0.25)];
    assert NamedAgents([AgentEntry(None, 0.0)]) == [];
    assert DocumentsWithText([DocEntry(None, None, 0.0)]) == [];
  }

  /**
   * With the example graph, a query closest to Iron Maiden and threshold 0,
   * both artists are returned, Iron Maiden first with Alice as its agent,
   * then U2 with no agent; no document mentions either.
   */
  lemma FindSimilarContentExample()
    ensures FindSimilarContent(ExampleGraph(), ["U2", "Iron Maiden"], Some([1.0]), ExampleCosine, 0.0, DefaultLimit)
         == [SearchResult(ArtistResult("Iron Maiden", 100.0, 1.0), [AgentResult("Alice", 0.25)], []),
             SearchResult(ArtistResult("U2", 90.0, 0.5), [], [])]
  {
    ExampleScan();
    ExampleSearch();
    ExampleShape();
  }

  /**
   * With the default threshold 0.7 and limit 5, the same query returns Iron
   * Maiden alone: U2's similarity 0.5 does not pass the threshold.
   */
  lemma FindSimilarContentDefaultExample()
    ensures FindSimilarContent(ExampleGraph(), ["U2", "Iron Maiden"], Some([1.0]), ExampleCosine, DefaultSimilarityThreshold, DefaultLimit)
         == [SearchResult(ArtistResult("Iron Maiden", 100.0, 1.0), [AgentResult("Alice", 0.25)], [])]
  {
    ExampleScan();
    ExampleSearchDefault();
    ExampleShape();
    assert ShapeAll([ExampleRowIronMaiden()])[0] == ShapeAll([ExampleRowIronMaiden(), ExampleRowU2()])[0];
  }
}
