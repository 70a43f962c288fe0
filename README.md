# GraphRAG music knowledge graph: ingestion and retrieval, modelled in Dafny

The system builds a Neo4j knowledge graph about music artists and answers
questions from it. The model covers its two halves.

- **Ingestion** (`src/backend/createGraphDB.py`).
  - Phase A reads artist rows and (sales agent, artist) rows from SQLite. It
    merges `Artist` and `SalesAgent` nodes by name. It links each agent by
    `MANAGED` to every existing artist whose name matches ignoring case.
  - Phase B splits a PDF into pages and chunks. For every chunk it creates a
    `Document` node. It links the new node by `RELATED_TO` to every Document
    whose embedding is similar (`is_similar`, threshold 0.8), and by
    `MENTIONS` to every artist and agent whose lower-cased name occurs in the
    lower-cased chunk.
- **Retrieval** (`Neo4jSearchEngine.find_similar_content` in
  `src/backend/generateResponse.py`).
  - One Cypher query keeps the artists whose cosine similarity to the query
    embedding is above the threshold (0.7). It collects their managing agents
    and mentioning documents, orders by similarity and applies `LIMIT` (5).
  - A comprehension drops null agents and null documents.
  - Any exception yields `[]`.

Module layout:

| file | module | what it holds |
|---|---|---|
| `wrappers.dfy` | `Wrappers` | `Option` |
| `text.dfy` | `Text` | `str.lower()` on ASCII, Python's substring test `in` |
| `similarity.dfy` | `Similarity` | `is_similar` over an external cosine distance |
| `graph.dfy` | `Graph` | The property graph: the `GraphStore` class that ingestion mutates, and the `Snapshot` value that a query reads. Also py2neo `merge` as an upsert. |
| `ingestion_entities.dfy` | `EntityIngestion` | `load_artists_and_sales_agent_from_sqlite_with_embeddings` |
| `ingestion_documents.dfy` | `DocumentIngestion` | the page and chunk loops of `load_pdf_embeddings_to_neo4j` |
| `retrieval.dfy` | `Retrieval` | `find_similar_content` |

How the model represents the graph:

- **Nodes.** `Artist` and `SalesAgent` nodes are keyed by `name`. `Document`
  nodes are keyed by `doc_id`. The uuid4 generator is a counter supply that
  never reuses an id.
- **Relationships.** They are created with Cypher `CREATE`, never merged. So
  the graph keeps them as a sequence, where a relationship may occur more than
  once. A `MATCH … MATCH … CREATE` creates nothing when an end node is missing.
- **Loops over sets.** The Python loops over `existing_artists` and
  `existing_sales_agents` run in set order. The model picks an arbitrary
  element at each step, so every proof holds for any iteration order.
- **External computations.**
  - Embeddings come from a function parameter `embed`.
  - scipy's cosine distance is a parameter that may return NaN.
  - `gds.similarity.cosine` is a parameter `cosine`.
  - The order in which Neo4j scans `Artist` nodes is an input `scan`.
  - The SQL results and the PDF pages and chunks are inputs.

Some functions are definitions that other contracts are stated against,
rather than properties in their own right:

- `Similarity.IsSimilar` is the threshold test of `is_similar`.
  `IsSimilarMonotone` and the RELATED_TO contracts of `DocumentIngestion` state
  what it decides.
- `EntityIngestion.ArtistEntries` and `AgentEntries` are the merges each loop
  of Phase A performs, in row order. `MergeArtists` and `MergeAgentsAndLink`
  tie the graph to them.
- `DocumentIngestion.PageSlots` and `Slots` are the chunks the page and chunk
  loops visit. `SlotsIff` and `SlotsInOrder` state which chunks those are and
  in what order.
- `Retrieval.ShapeAll` is the final comprehension. `FindSimilarContent` and
  the lemmas after it state what its results hold.

Four points where the intended behaviour is not what the code does; the
model follows the code:

- A NaN similarity is not rejected. `is_similar` simply compares, and a
  comparison with NaN is false, so NaN never links.
- A similarity that cannot be computed does not count as 0. The query uses 0
  only for the placeholder entry when no agent or document matched. The model
  treats a document without a stored vector as a failed query, which returns
  `[]`.
- The agent relationship is `MANAGED`, not `MANAGES`: the code creates and
  queries `MANAGED`.
- Re-ingestion does not de-duplicate relationships. The code uses `CREATE`,
  so the model appends them again.

## Model

| member | source | states |
|---|---|---|
| `Text.Lower` | src/backend/createGraphDB.py:77 | `lower()` keeps the length and lower-cases each character independently. |
| `Text.LowerIdempotent` | src/backend/createGraphDB.py:77 | Lower-casing twice is lower-casing once. |
| `Text.ContainsOccurrence` | src/backend/createGraphDB.py:156 | When the substring test holds, the needle occurs at the position returned. |
| `Text.OccurrenceContains` | src/backend/createGraphDB.py:156 | An occurrence of the needle at any position makes the substring test hold. |
| `Text.ContainsIff` | src/backend/createGraphDB.py:156 | The substring test holds iff the needle occurs at some position of the haystack, in both directions. |
| `Text.EmptyNeedleEverywhere` | src/backend/createGraphDB.py:156 | An empty name occurs in every chunk, so an artist named "" would be mentioned by every chunk. |
| `Similarity.IsSimilarMonotone` | src/backend/createGraphDB.py:106-108 | Similar at a threshold implies similar at every lower threshold. |
| `Graph.UpsertAll` | src/backend/createGraphDB.py:47-48 | Merging a sequence of nodes by key leaves exactly the old keys plus the merged keys. |
| `Graph.UpsertAllKeepsOthers` | src/backend/createGraphDB.py:73-74 | A node whose key no merge names is untouched. |
| `Graph.UpsertAllLastWins` | src/backend/createGraphDB.py:43-48 | After merging, a key holds the properties of the last row that names it. |
| `Graph.UpsertAllIsOverride` | src/backend/createGraphDB.py:47-48 | Merging equals overriding the old map with the map the rows alone build. |
| `Graph.UpsertAllOverwrites` | src/backend/createGraphDB.py:43-48 | Merging rows that name the same keys in the same order as an earlier merge leaves what merging only the later rows would leave. |
| `Graph.UpsertAllIdempotent` | src/backend/createGraphDB.py:69-74 | Merging the same rows a second time changes nothing: no node is duplicated. |
| `Graph.GraphStore.constructor` | src/backend/createGraphDB.py:21 | A fresh database: empty and valid. The ingestion methods accept any valid graph, so a database that already holds nodes is covered too. |
| `Graph.GraphStore.MergeArtist` | src/backend/createGraphDB.py:47-48 | `graph.merge` on `Artist` by `name` creates the node or replaces its properties; validity is kept. |
| `Graph.GraphStore.MergeSalesAgent` | src/backend/createGraphDB.py:73-74 | The same for `SalesAgent`. |
| `Graph.GraphStore.FreshDocId` | src/backend/createGraphDB.py:133 | The id is held by no Document node, and it is at least the supply's previous position and below its new one. So two calls never return the same id, and no later Document can already hold it. |
| `Graph.GraphStore.CreateDocument` | src/backend/createGraphDB.py:138-139 | `graph.create` adds the node under its fresh id and changes no other node. |
| `Graph.GraphStore.CreateEdge` | src/backend/createGraphDB.py:78-83 | `MATCH`+`CREATE` appends the relationship iff both end nodes exist, and otherwise changes nothing. |
| `EntityIngestion.ManagedEdgesIff` | src/backend/createGraphDB.py:69-83 | A MANAGED relationship is created iff some row names its agent and an existing artist's name equals that row's artist name ignoring case. Both directions are proved. |
| `EntityIngestion.ManagedEdgesIgnoreCase` | src/backend/createGraphDB.py:76-77 | Rows that spell an artist differently but the same ignoring case call for the same MANAGED relationships. |
| `EntityIngestion.LinkManaged` | src/backend/createGraphDB.py:76-83 | The inner loop appends, for one agent row, exactly one MANAGED relationship per matching existing artist. |
| `EntityIngestion.MergeArtists` | src/backend/createGraphDB.py:42-49 | `artist_names` has one entry per row, in row order, and the Artist nodes are the old ones merged with the rows. |
| `EntityIngestion.MergeAgentsAndLink` | src/backend/createGraphDB.py:69-83 | SalesAgent nodes are merged with the rows. The old relationships are kept as a prefix, and the new ones are exactly the MANAGED multiset the rows call for. |
| `EntityIngestion.LoadArtistsAndSalesAgents` | src/backend/createGraphDB.py:28-86 | Phase A as a whole. `existing_artists` is read after the artist loop. Documents are untouched, and relationships are only added. |
| `EntityIngestion.LoadArtistsAndSalesAgentsTwice` | src/backend/createGraphDB.py:43-74 | Running Phase A twice on the same rows creates no further node: the Artist and SalesAgent names are those of a single run, and the properties are those the second run computed, even if the embedding provider answers differently. |
| `DocumentIngestion.SlotsIff` | src/backend/createGraphDB.py:128-132 | The loops visit a (page, chunk, text) iff it is a chunk of a non-empty page. |
| `DocumentIngestion.SlotsInOrder` | src/backend/createGraphDB.py:128-132 | Chunks are visited in strictly increasing (page, chunk) order, so each exactly once. |
| `DocumentIngestion.LinkRelated` | src/backend/createGraphDB.py:143-152 | The loop over the Document nodes appends exactly one RELATED_TO to every other Document that holds a list embedding similar to the chunk's (threshold 0.8). |
| `DocumentIngestion.LinkArtistMentions` | src/backend/createGraphDB.py:155-162 | It appends exactly one MENTIONS to every artist of the snapshot whose lower-cased name occurs in the lower-cased chunk. |
| `DocumentIngestion.LinkAgentMentions` | src/backend/createGraphDB.py:164-171 | The same for the sales agents. |
| `DocumentIngestion.IngestChunk` | src/backend/createGraphDB.py:133-171 | One chunk creates one Document with a fresh id, that text, page number, chunk index and vector. Its relationships are exactly the RELATED_TO and MENTIONS sets above, and the graph is otherwise unchanged. |
| `DocumentIngestion.LoadPage` | src/backend/createGraphDB.py:130-171 | The chunk loop of one page extends the loop invariant by that page's chunks. |
| `DocumentIngestion.LoadPdfEmbeddings` | src/backend/createGraphDB.py:111-171 | Phase B as a whole, with the name sets read once before the loops. One new Document per chunk, old nodes unchanged, relationships only appended. Each chunk's relationships are exactly those above, counted against the Documents that existed when it was created. |
| `DocumentIngestion.NewDocumentsAreChunks` | src/backend/createGraphDB.py:128-138 | Every new Document is chunk `chunk_index` of the non-empty page `page_number`, with that chunk's text and vector. |
| `DocumentIngestion.EveryChunkIngested` | src/backend/createGraphDB.py:128-138 | Every chunk of every non-empty page has a new Document. |
| `DocumentIngestion.NewDocumentsDistinctChunks` | src/backend/createGraphDB.py:128-138 | No two new Documents share a (page_number, chunk_index). |
| `DocumentIngestion.IngestedEdgesSound` | src/backend/createGraphDB.py:143-171 | Every relationship ingestion adds leaves a new Document. A RELATED_TO never points to its own Document, and its target holds a similar list embedding. A MENTIONS names an artist or agent whose name occurs in the chunk. |
| `Retrieval.Distinct` | src/backend/generateResponse.py:54-62 | `COLLECT(DISTINCT …)` keeps exactly the same values, each once. |
| `Retrieval.ManagersOf` | src/backend/generateResponse.py:36 | `OPTIONAL MATCH (s)-[:MANAGED]->(a)` finds exactly the existing agents with a MANAGED relationship to the artist. |
| `Retrieval.MentioningDocs` | src/backend/generateResponse.py:44 | `OPTIONAL MATCH (d)-[:MENTIONS]->(a)` finds exactly the existing Documents that mention the artist. |
| `Retrieval.ManagingAgents` | src/backend/generateResponse.py:35-57 | The `managing_agents` column holds each managing agent once, with its similarity. It holds no other named agent. A null entry occurs only as the single entry `{null, 0}`. |
| `Retrieval.ManagingAgentsNone` | src/backend/generateResponse.py:35-42 | With no MANAGED relationship to the artist, the column is exactly the single null entry with similarity 0. |
| `Retrieval.RelatedDocuments` | src/backend/generateResponse.py:43-61 | The `related_documents` column holds each mentioning Document's (text, page, similarity), once each. A null entry occurs only as the single entry `{null, null, 0}`. It fails iff a mentioning Document has no vector. |
| `Retrieval.RelatedDocumentsNone` | src/backend/generateResponse.py:43-49 | With no Document mentioning the artist, the column is exactly the single null entry with similarity 0. |
| `Retrieval.QualifyingArtists` | src/backend/generateResponse.py:32-34 | `WHERE artist_similarity > $threshold` keeps exactly the scanned artists above the threshold, without repeats. |
| `Retrieval.RowsFor` | src/backend/generateResponse.py:31-69 | One row per qualifying artist, in scan order, with its name and similarity. It fails iff one documents column fails. |
| `Retrieval.RowsForAreRows` | src/backend/generateResponse.py:52-69 | Each row carries its artist's revenue, agents column and documents column. |
| `Retrieval.InsertBySimilarity` | src/backend/generateResponse.py:70 | Inserting into rows sorted by descending similarity keeps them sorted, and adds exactly that row. |
| `Retrieval.SortBySimilarity` | src/backend/generateResponse.py:70 | `ORDER BY artist_similarity DESC` yields a permutation sorted non-increasingly. |
| `Retrieval.TopRows` | src/backend/generateResponse.py:70-71 | `ORDER BY … LIMIT` yields min(limit, n) rows, sorted, drawn from the input. A row left out is no more similar than any row kept. |
| `Retrieval.SearchQuery` | src/backend/generateResponse.py:31-79 | The query returns min(limit, qualifying) rows, sorted by descending similarity. |
| `Retrieval.SearchQueryFails` | src/backend/generateResponse.py:31-79 | The query fails iff the limit is negative or a qualifying artist's documents column fails. |
| `Retrieval.SearchQueryRows` | src/backend/generateResponse.py:31-69 | Every returned row is the row of an artist above the threshold. |
| `Retrieval.SearchQueryTopK` | src/backend/generateResponse.py:64-71 | Each artist is returned at most once, and a qualifying artist left out is no more similar than any returned one. |
| `Retrieval.NamedAgents` | src/backend/generateResponse.py:88-95 | `sales_agents` holds exactly the collected agents whose name is not null, and is without repeats when the column is. |
| `Retrieval.DocumentsWithText` | src/backend/generateResponse.py:96-99 | `supporting_documents` holds exactly the collected documents whose text is not null, and is without repeats when the column is. |
| `Retrieval.FindSimilarContent` | src/backend/generateResponse.py:26-106 | No query embedding or a negative limit yields `[]`, and at most `limit` results are returned. Every result is an artist above the threshold, with its revenue and its similarity. Results are sorted by non-increasing relevance. |
| `Retrieval.FindSimilarContentFails` | src/backend/generateResponse.py:104-106 | A failed embedding, a negative limit, or a Document without a vector that mentions an artist above the threshold yields `[]`. |
| `Retrieval.FindSimilarContentSucceeds` | src/backend/generateResponse.py:27-102 | Otherwise the query succeeds and the result is the shaped rows. |
| `Retrieval.FindSimilarContentNoneAbove` | src/backend/generateResponse.py:32-34 | With no artist above the threshold the result is empty. |
| `Retrieval.FindSimilarContentCount` | src/backend/generateResponse.py:70-71 | On success exactly min(limit, number of artists above the threshold) results are returned. |
| `Retrieval.FindSimilarContentTopK` | src/backend/generateResponse.py:64-71 | On success each artist appears once, and no artist above the threshold that is left out is more similar than one returned. |
| `Retrieval.FindSimilarContentAgents` | src/backend/generateResponse.py:36-95 | A result's `sales_agents` are exactly the agents with a MANAGED relationship to its artist, each once, with its similarity. An artist no agent manages gets `[]`. |
| `Retrieval.FindSimilarContentDocuments` | src/backend/generateResponse.py:44-99 | A result's `supporting_documents` are exactly the (text, page, similarity) of the Documents that mention its artist, each once, none with null text. |
| `Retrieval.FindSimilarContentExample` | src/backend/generateResponse.py:26-102 | Artists Iron Maiden and U2, with Alice managing Iron Maiden, at threshold 0, with a query closest to Iron Maiden. The similarity is an arbitrary function chosen for the example (the first vector's first component), not a real cosine. The result is Iron Maiden first with Alice, then U2 with no agent. |
| `Retrieval.FindSimilarContentDefaultExample` | src/backend/generateResponse.py:26-102 | The same graph and query with the default threshold 0.7 and limit 5 return Iron Maiden alone: U2's similarity 0.5 under the example's similarity function is below the threshold. |

## Left out

- `setup_constraints` (createGraphDB.py:89-103): it only drops and creates a uniqueness constraint and prints. Document ids are unique in the model by construction.
- SQL text and SQLite connection handling: the query results are inputs (rows in cursor order), so the aggregation, `LIMIT 10` and `LIMIT 100` of the SQL are not modelled.
- PDF loading and `SpacyTextSplitter`: the pages and their chunks are inputs.
- The OpenAI embedding provider, scipy's `cosine` and `gds.similarity.cosine` are function parameters. Their arithmetic, vector dimensions and floating point are not modelled. A provider error in the middle of ingestion would leave a partial graph; the model assumes the provider always answers during ingestion. During retrieval its failure is the `None` query embedding.
- `uuid.uuid4()` is modelled as a counter that never repeats. Real uuid collisions are not modelled.
- `str.lower()` is modelled on ASCII letters only; Unicode case mapping is not modelled.
- `isinstance(…, np.ndarray)` and `.tolist()` are identity conversions in the model.
- py2neo `graph.merge` is modelled as create-or-replace of the node's properties under its key.
- Retrieval.FindSimilarContent: `round(…, 3)` on the relevance scores is not modelled, so scores are the unrounded similarities.
- Retrieval.SortBySimilarity: Neo4j does not specify the order among artists with equal similarity. The model fixes one order (the insertion sort's), and its lemmas do not depend on it.
- Retrieval.RelatedDocuments: calling `gds.similarity.cosine` on a Document without a stored vector is modelled as a query error, which yields `[]`. The same applies to a negative `LIMIT`.
- Neo4j's scan order of Artist nodes is an input `scan` that lists every Artist node once. The order of collected entries follows relationship order.
- `generate_response_from_results`, the FastAPI app, CORS and uvicorn: language-model calls and HTTP plumbing.
- Module-level execution (createGraphDB.py:176-177), credentials and `print` output.
- The frontend.
