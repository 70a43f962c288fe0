/**
 * The page and chunk loops of `load_pdf_embeddings_to_neo4j` in
 * createGraphDB.py. The PDF loader and the text splitter are external: the
 * pages arrive as a sequence, each with its text and the chunks the splitter
 * cuts it into. `embed` is the embedding provider and `distance` scipy's cosine
 * distance.
 */
module DocumentIngestion {
  import opened Wrappers
  import opened Text
  import opened Similarity
  import opened Graph

  /** A page as the loader returns it, with `text_splitter.split_text(text)` already applied. */
  datatype Page = Page(text: string, chunks: seq<string>)

  /** One chunk to ingest: its page index `i`, its chunk index `j` and its text. */
  datatype Slot = Slot(pageNumber: nat, chunkIndex: nat, text: string)

  /** The chunks of page `i`, in order; a page with empty text has none. */
  function PageSlots(i: nat, page: Page): (r: seq<Slot>)
    ensures page.text == "" ==> r == []
    ensures page.text != "" ==> |r| == |page.chunks|
    ensures forall j :: 0 <= j < |r| ==> r[j] == Slot(i, j, page.chunks[j])
  {
    if page.text == "" then []
    else seq(|page.chunks|, j requires 0 <= j < |page.chunks| => Slot(i, j, page.chunks[j]))
  }

  /** Every chunk of every page, in the order the two nested loops visit them. */
  function Slots(pages: seq<Page>): seq<Slot>
    decreases |pages|
  {
    if pages == [] then []
    else Slots(pages[..|pages| - 1]) + PageSlots(|pages| - 1, pages[|pages| - 1])
  }

  /** `s` is chunk `s.chunkIndex` of the non-empty page `s.pageNumber`. */
  predicate IsChunkOf(pages: seq<Page>, s: Slot)
  {
    && s.pageNumber < |pages|
    && pages[s.pageNumber].text != ""
    && s.chunkIndex < |pages[s.pageNumber].chunks|
    && s.text == pages[s.pageNumber].chunks[s.chunkIndex]
  }

  /** The loops visit exactly the chunks of the non-empty pages. */
  lemma {:induction false} SlotsIff(pages: seq<Page>, s: Slot)
    ensures s in Slots(pages) <==> IsChunkOf(pages, s)
    decreases |pages|
  {
    if pages != [] {
      var init := pages[..|pages| - 1];
      var n := |pages| - 1;
      SlotsIff(init, s);
      if IsChunkOf(init, s) {
        assert pages[s.pageNumber] == init[s.pageNumber];
      }
      if s in PageSlots(n, pages[n]) {
        var j :| 0 <= j < |PageSlots(n, pages[n])| && PageSlots(n, pages[n])[j] == s;
      }
      if IsChunkOf(pages, s) {
        if s.pageNumber < n {
          assert init[s.pageNumber] == pages[s.pageNumber];
          assert IsChunkOf(init, s);
        } else {
          assert PageSlots(n, pages[n])[s.chunkIndex] == s;
        }
      }
    }
  }

  /** `a` is visited before `b`: an earlier page, or the same page and an earlier chunk. */
  predicate VisitedBefore(a: Slot, b: Slot)
  {
    a.pageNumber < b.pageNumber || (a.pageNumber == b.pageNumber && a.chunkIndex < b.chunkIndex)
  }

  /** The chunks are visited in strictly increasing (page, chunk) order, so each one exactly once. */
  lemma {:induction false} SlotsInOrder(pages: seq<Page>)
    ensures forall p, q :: 0 <= p < q < |Slots(pages)| ==> VisitedBefore(Slots(pages)[p], Slots(pages)[q])
    decreases |pages|
  {
    if pages != [] {
      var init := pages[..|pages| - 1];
      var n := |pages| - 1;
      var head, tail := Slots(init), PageSlots(n, pages[n]);
      SlotsInOrder(init);
      forall p | 0 <= p < |head|
        ensures head[p].pageNumber < n
      {
        SlotsIff(init, head[p]);
      }
      assert Slots(pages) == head + tail;
      forall p, q | 0 <= p < q < |Slots(pages)|
        ensures VisitedBefore(Slots(pages)[p], Slots(pages)[q])
      {
        if q < |head| {
          assert Slots(pages)[p] == head[p] && Slots(pages)[q] == head[q];
        } else if p < |head| {
          assert Slots(pages)[p] == head[p] && Slots(pages)[q] == tail[q - |head|];
        } else {
          assert Slots(pages)[p] == tail[p - |head|] && Slots(pages)[q] == tail[q - |head|];
        }
      }
    }
  }

  /** The Document node created for a chunk: its text, page, chunk index and vector. */
  function ChunkNode(s: Slot, embed: string -> Embedding): DocumentNode
  {
    DocumentNode(s.text, s.pageNumber, s.chunkIndex, Some(embed(s.text)))
  }

  /** A new chunk with vector `v` is linked to `node`: its `embedding` is a list and `is_similar` holds. */
  predicate LinksTo(distance: (Embedding, Embedding) -> CosineDistance, v: Embedding, node: DocumentNode)
  {
    node.embedding.Some? && IsSimilar(distance, v, node.embedding.value, ChunkLinkThreshold)
  }

  /** The RELATED_TO relationships for document `id`: one to every other document it is similar to. */
  function RelatedFor(id: DocId, v: Embedding, docs: map<DocId, DocumentNode>, candidates: set<DocId>,
                      distance: (Embedding, Embedding) -> CosineDistance): set<Edge>
  {
    set t | t in candidates && t in docs && t != id && LinksTo(distance, v, docs[t]) :: RelatedTo(id, t)
  }

  /** `name.lower() in chunk.lower()`: the chunk mentions the name, ignoring case. */
  predicate NameOccurs(name: string, chunk: string)
  {
    Contains(Lower(chunk), Lower(name))
  }

  /** The MENTIONS relationships to artists for a chunk: one to every artist whose name occurs in it, ignoring case. */
  function ArtistMentionsFor(id: DocId, chunk: string, names: set<string>): set<Edge>
  {
    set a | a in names && NameOccurs(a, chunk) :: MentionsArtist(id, a)
  }

  /** The MENTIONS relationships to sales agents for a chunk, by the same rule. */
  function AgentMentionsFor(id: DocId, chunk: string, names: set<string>): set<Edge>
  {
    set a | a in names && NameOccurs(a, chunk) :: MentionsAgent(id, a)
  }

  /** Considering one more candidate document adds its relationship exactly when it qualifies. */
  lemma RelatedForStep(id: DocId, v: Embedding, docs: map<DocId, DocumentNode>, done: set<DocId>, t: DocId,
                    distance: (Embedding, Embedding) -> CosineDistance)
    requires t !in done && t in docs
    ensures multiset(RelatedFor(id, v, docs, done + {t}, distance))
         == multiset(RelatedFor(id, v, docs, done, distance))
            + if t != id && LinksTo(distance, v, docs[t]) then multiset{RelatedTo(id, t)} else multiset{}
  {
    var linked := RelatedFor(id, v, docs, done, distance);
    if t != id && LinksTo(distance, v, docs[t]) {
      assert RelatedFor(id, v, docs, done + {t}, distance) == linked + {RelatedTo(id, t)};
      MultisetOfSetAdd(linked, RelatedTo(id, t));
    } else {
      assert RelatedFor(id, v, docs, done + {t}, distance) == linked;
    }
  }

  /** Considering one more artist name adds its relationship exactly when the chunk names it. */
  lemma ArtistMentionsForStep(id: DocId, chunk: string, done: set<string>, a: string)
    requires a !in done
    ensures multiset(ArtistMentionsFor(id, chunk, done + {a}))
         == multiset(ArtistMentionsFor(id, chunk, done))
            + if NameOccurs(a, chunk) then multiset{MentionsArtist(id, a)} else multiset{}
  {
    var linked := ArtistMentionsFor(id, chunk, done);
    if NameOccurs(a, chunk) {
      assert ArtistMentionsFor(id, chunk, done + {a}) == linked + {MentionsArtist(id, a)};
      MultisetOfSetAdd(linked, MentionsArtist(id, a));
    } else {
      assert ArtistMentionsFor(id, chunk, done + {a}) == linked;
    }
  }

  /** Considering one more sales agent name adds its relationship exactly when the chunk names it. */
  lemma AgentMentionsForStep(id: DocId, chunk: string, done: set<string>, a: string)
    requires a !in done
    ensures multiset(AgentMentionsFor(id, chunk, done + {a}))
         == multiset(AgentMentionsFor(id, chunk, done))
            + if NameOccurs(a, chunk) then multiset{MentionsAgent(id, a)} else multiset{}
  {
    var linked := AgentMentionsFor(id, chunk, done);
    if NameOccurs(a, chunk) {
      assert AgentMentionsFor(id, chunk, done + {a}) == linked + {MentionsAgent(id, a)};
      MultisetOfSetAdd(linked, MentionsAgent(id, a));
    } else {
      assert AgentMentionsFor(id, chunk, done + {a}) == linked;
    }
  }

  /** The loop over every stored document for a new chunk `id` with vector `v`: a RELATED_TO relationship to each other document it is similar to. */
  method LinkRelated(g: GraphStore, id: DocId, v: Embedding, distance: (Embedding, Embedding) -> CosineDistance)
    returns (ghost added: seq<Edge>)
    requires g.Valid() && id in g.documents
    modifies g`edges
    ensures g.Valid()
    ensures g.edges == old(g.edges) + added
    ensures multiset(added) == multiset(RelatedFor(id, v, g.documents, g.documents.Keys, distance))
  {
    ghost var before := g.edges;
    added := [];
    var todo := g.documents.Keys;
    ghost var done: set<DocId> := {};
    while todo != {}
      invariant g.Valid()
      invariant todo + done == g.documents.Keys && todo !! done
      invariant g.edges == before + added
      invariant multiset(added) == multiset(RelatedFor(id, v, g.documents, done, distance))
      decreases todo
    {
      var t :| t in todo;
      RelatedForStep(id, v, g.documents, done, t, distance);
      if LinksTo(distance, v, g.documents[t]) && t != id {
        g.CreateEdge(RelatedTo(id, t));
        added := added + [RelatedTo(id, t)];
      }
      todo := todo - {t};
      done := done + {t};
    }
  }

  /** The loop over the artist names for one chunk: a MENTIONS relationship to each artist the chunk names. */
  method LinkArtistMentions(g: GraphStore, id: DocId, chunk: string, names: set<string>)
    returns (ghost added: seq<Edge>)
    requires g.Valid() && id in g.documents && names <= g.artists.Keys
    modifies g`edges
    ensures g.Valid()
    ensures g.edges == old(g.edges) + added
    ensures multiset(added) == multiset(ArtistMentionsFor(id, chunk, names))
  {
    ghost var before := g.edges;
    added := [];
    var todo := names;
    ghost var done: set<string> := {};
    while todo != {}
      invariant g.Valid()
      invariant todo + done == names && todo !! done
      invariant g.edges == before + added
      invariant multiset(added) == multiset(ArtistMentionsFor(id, chunk, done))
      decreases todo
    {
      var a :| a in todo;
      ArtistMentionsForStep(id, chunk, done, a);
      if NameOccurs(a, chunk) {
        g.CreateEdge(MentionsArtist(id, a));
        added := added + [MentionsArtist(id, a)];
      }
      todo := todo - {a};
      done := done + {a};
    }
  }

  /** The loop over the sales agent names for one chunk: a MENTIONS relationship to each agent the chunk names. */
  method LinkAgentMentions(g: GraphStore, id: DocId, chunk: string, names: set<string>)
    returns (ghost added: seq<Edge>)
    requires g.Valid() && id in g.documents && names <= g.agents.Keys
    modifies g`edges
    ensures g.Valid()
    ensures g.edges == old(g.edges) + added
    ensures multiset(added) == multiset(AgentMentionsFor(id, chunk, names))
  {
    ghost var before := g.edges;
    added := [];
    var todo := names;
    ghost var done: set<string> := {};
    while todo != {}
      invariant g.Valid()
      invariant todo + done == names && todo !! done
      invariant g.edges == before + added
      invariant multiset(added) == multiset(AgentMentionsFor(id, chunk, done))
      decreases todo
    {
      var a :| a in todo;
      AgentMentionsForStep(id, chunk, done, a);
      if NameOccurs(a, chunk) {
        g.CreateEdge(MentionsAgent(id, a));
        added := added + [MentionsAgent(id, a)];
      }
      todo := todo - {a};
      done := done + {a};
    }
  }

  /** `e` leaves the Document `id` (RELATED_TO or MENTIONS). */
  predicate FromDocument(e: Edge, id: DocId)
  {
    (e.RelatedTo? || e.MentionsArtist? || e.MentionsAgent?) && e.doc == id
  }

  /**
   * One iteration of the chunk loop: a fresh `doc_id`, the chunk embedded, the
   * Document node created, then linked by RELATED_TO to every other stored
   * document it is similar to and by MENTIONS to every artist and agent of the
   * name sets whose name it contains ignoring case.
   */
  method IngestChunk(g: GraphStore, s: Slot, artistNames: set<string>, agentNames: set<string>,
                     embed: string -> Embedding, distance: (Embedding, Embedding) -> CosineDistance)
    returns (id: DocId, ghost added: seq<Edge>)
    requires g.Valid()
    requires artistNames <= g.artists.Keys && agentNames <= g.agents.Keys
    modifies g`documents, g`edges, g`nextDocId
    ensures g.Valid()
    ensures id !in old(g.documents)
    ensures forall e :: e in old(g.edges) ==> !FromDocument(e, id)
    ensures g.documents == old(g.documents)[id := ChunkNode(s, embed)]
    ensures g.edges == old(g.edges) + added
    ensures multiset(added) == multiset(RelatedFor(id, embed(s.text), g.documents, g.documents.Keys, distance))
                             + multiset(ArtistMentionsFor(id, s.text, artistNames))
                             + multiset(AgentMentionsFor(id, s.text, agentNames))
  {
    id := g.FreshDocId();
    assert forall e :: e in g.edges ==> Connects(g.View(), e);
    var v := embed(s.text);
    g.CreateDocument(id, DocumentNode(s.text, s.pageNumber, s.chunkIndex, Some(v)));
    var related := LinkRelated(g, id, v, distance);
    var artistMentions := LinkArtistMentions(g, id, s.text, artistNames);
    var agentMentions := LinkAgentMentions(g, id, s.text, agentNames);
    added := related + artistMentions + agentMentions;
  }

  /**
   * The documents `created` hold the chunks `slots`, one each and in order;
   * they are new, and every document of `before` is still there, unchanged.
   */
  ghost predicate DocumentsAdded(before: map<DocId, DocumentNode>, after: map<DocId, DocumentNode>,
                                 created: seq<DocId>, slots: seq<Slot>, embed: string -> Embedding)
  {
    && |created| == |slots|
    && (forall p, q :: 0 <= p < q < |created| ==> created[p] != created[q])
    && (forall k :: 0 <= k < |created| ==> created[k] !in before)
    && (forall d :: d in after <==> d in before || d in created)
    && (forall d :: d in before ==> after[d] == before[d])
    && (forall k :: 0 <= k < |created| ==> after[created[k]] == ChunkNode(slots[k], embed))
  }

  /** The relationships after `before` all leave one of the documents `created`, and none occurs twice. */
  ghost predicate EdgesExtend(before: seq<Edge>, after: seq<Edge>, created: seq<DocId>)
  {
    && |after| >= |before| && after[..|before|] == before
    && (forall e :: e in after[|before|..] ==> !e.Managed? && e.doc in created)
    && (forall e :: multiset(after[|before|..])[e] <= 1)
  }

  /**
   * Document k of `created` has a RELATED_TO to exactly the documents that
   * existed when it was created (those of `docs0` and those created before it)
   * and that it is similar to.
   */
  ghost predicate RelatedRecorded(after: seq<Edge>, docs0: set<DocId>, docs: map<DocId, DocumentNode>,
                                  created: seq<DocId>, slots: seq<Slot>,
                                  embed: string -> Embedding, distance: (Embedding, Embedding) -> CosineDistance)
    requires |created| == |slots|
  {
    forall k, t :: 0 <= k < |created| ==>
      (RelatedTo(created[k], t) in after <==>
         t != created[k] && (t in docs0 || t in created[..k]) && t in docs && LinksTo(distance, embed(slots[k].text), docs[t]))
  }

  /** Document k of `created` has a MENTIONS to exactly the artists and agents of the name sets that its chunk names. */
  ghost predicate MentionsRecorded(after: seq<Edge>, created: seq<DocId>, slots: seq<Slot>,
                                   artistNames: set<string>, agentNames: set<string>)
    requires |created| == |slots|
  {
    && (forall k, a :: 0 <= k < |created| ==>
          (MentionsArtist(created[k], a) in after <==> a in artistNames && NameOccurs(a, slots[k].text)))
    && (forall k, a :: 0 <= k < |created| ==>
          (MentionsAgent(created[k], a) in after <==> a in agentNames && NameOccurs(a, slots[k].text)))
  }

  /** Everything the chunk loop promises about the relationships it creates. */
  ghost predicate EdgesAdded(before: seq<Edge>, after: seq<Edge>, docs0: set<DocId>, docs: map<DocId, DocumentNode>,
                             created: seq<DocId>, slots: seq<Slot>, artistNames: set<string>, agentNames: set<string>,
                             embed: string -> Embedding, distance: (Embedding, Embedding) -> CosineDistance)
  {
    && |created| == |slots|
    && EdgesExtend(before, after, created)
    && RelatedRecorded(after, docs0, docs, created, slots, embed, distance)
    && MentionsRecorded(after, created, slots, artistNames, agentNames)
  }

  /** Recording one more chunk keeps `DocumentsAdded`. */
  lemma DocumentsAddedStep(docs0: map<DocId, DocumentNode>, docs: map<DocId, DocumentNode>, created: seq<DocId>, slots: seq<Slot>,
                      id: DocId, s: Slot, embed: string -> Embedding)
    requires DocumentsAdded(docs0, docs, created, slots, embed)
    requires id !in docs
    ensures DocumentsAdded(docs0, docs[id := ChunkNode(s, embed)], created + [id], slots + [s], embed)
  {
  }

  /** What the multiset equation of one chunk's relationships says, element by element. */
  lemma ChunkEdgesMembers(id: DocId, added: seq<Edge>, related: set<Edge>, artistMentions: set<Edge>, agentMentions: set<Edge>)
    requires forall e :: e in related ==> e.RelatedTo? && e.doc == id
    requires forall e :: e in artistMentions ==> e.MentionsArtist? && e.doc == id
    requires forall e :: e in agentMentions ==> e.MentionsAgent? && e.doc == id
    requires multiset(added) == multiset(related) + multiset(artistMentions) + multiset(agentMentions)
    ensures forall e :: e in added <==> e in related || e in artistMentions || e in agentMentions
    ensures forall e :: e in added ==> FromDocument(e, id)
    ensures forall e :: multiset(added)[e] <= 1
  {
    forall e
      ensures e in added <==> e in related || e in artistMentions || e in agentMentions
    {
      assert e in added <==> e in multiset(added);
    }
  }

  /** Recording one more chunk keeps `EdgesExtend`. */
  lemma EdgesExtendStep(before: seq<Edge>, edges: seq<Edge>, created: seq<DocId>, id: DocId, added: seq<Edge>)
    requires EdgesExtend(before, edges, created)
    requires forall e :: e in edges ==> !FromDocument(e, id)
    requires forall e :: e in added ==> FromDocument(e, id)
    requires forall e :: multiset(added)[e] <= 1
    ensures EdgesExtend(before, edges + added, created + [id])
  {
    var edges' := edges + added;
    assert edges'[..|before|] == before;
    assert edges'[|before|..] == edges[|before|..] + added;
    forall e
      ensures multiset(edges'[|before|..])[e] <= 1
    {
      if e in added {
        assert e !in edges;
        assert e !in edges[|before|..];
      }
    }
  }

  /** Recording one more chunk keeps `RelatedRecorded`. */
  lemma RelatedRecordedStep(edges: seq<Edge>, docs0: set<DocId>, docs: map<DocId, DocumentNode>,
                     created: seq<DocId>, slots: seq<Slot>, id: DocId, s: Slot, added: seq<Edge>,
                     embed: string -> Embedding, distance: (Embedding, Embedding) -> CosineDistance)
    requires |created| == |slots|
    requires RelatedRecorded(edges, docs0, docs, created, slots, embed, distance)
    requires forall d :: d in docs <==> d in docs0 || d in created
    requires id !in docs
    requires forall e :: e in edges ==> !FromDocument(e, id)
    requires forall e :: e in added ==> FromDocument(e, id)
    requires forall t :: RelatedTo(id, t) in added <==>
               RelatedTo(id, t) in RelatedFor(id, embed(s.text), docs[id := ChunkNode(s, embed)], docs.Keys + {id}, distance)
    ensures RelatedRecorded(edges + added, docs0, docs[id := ChunkNode(s, embed)], created + [id], slots + [s], embed, distance)
  {
    var docs' := docs[id := ChunkNode(s, embed)];
    var created', slots', edges' := created + [id], slots + [s], edges + added;
    forall k, t | 0 <= k < |created'|
      ensures RelatedTo(created'[k], t) in edges' <==>
              t != created'[k] && (t in docs0 || t in created'[..k]) && t in docs' && LinksTo(distance, embed(slots'[k].text), docs'[t])
    {
      if k < |created| {
        assert created'[k] == created[k] && slots'[k] == slots[k] && created'[..k] == created[..k];
        assert created[k] in docs;
        assert !FromDocument(RelatedTo(created[k], t), id);
        if t in docs0 || t in created[..k] {
          assert t in docs;
        }
      } else {
        assert created'[..k] == created && slots'[k] == s;
        assert RelatedTo(id, t) !in edges;
      }
    }
  }

  /** Recording one more chunk keeps `MentionsRecorded`. */
  lemma MentionsRecordedStep(edges: seq<Edge>, docs: set<DocId>, created: seq<DocId>, slots: seq<Slot>, id: DocId, s: Slot,
                     added: seq<Edge>, artistNames: set<string>, agentNames: set<string>)
    requires |created| == |slots|
    requires MentionsRecorded(edges, created, slots, artistNames, agentNames)
    requires forall k :: 0 <= k < |created| ==> created[k] in docs
    requires id !in docs
    requires forall e :: e in edges ==> !FromDocument(e, id)
    requires forall e :: e in added ==> FromDocument(e, id)
    requires forall a :: MentionsArtist(id, a) in added <==> MentionsArtist(id, a) in ArtistMentionsFor(id, s.text, artistNames)
    requires forall a :: MentionsAgent(id, a) in added <==> MentionsAgent(id, a) in AgentMentionsFor(id, s.text, agentNames)
    ensures MentionsRecorded(edges + added, created + [id], slots + [s], artistNames, agentNames)
  {
    var created', slots', edges' := created + [id], slots + [s], edges + added;
    forall k, a | 0 <= k < |created'|
      ensures MentionsArtist(created'[k], a) in edges' <==> a in artistNames && NameOccurs(a, slots'[k].text)
      ensures MentionsAgent(created'[k], a) in edges' <==> a in agentNames && NameOccurs(a, slots'[k].text)
    {
      if k < |created| {
        assert created'[k] == created[k] && slots'[k] == slots[k];
        assert !FromDocument(MentionsArtist(created[k], a), id);
        assert !FromDocument(MentionsAgent(created[k], a), id);
      } else {
        assert MentionsArtist(id, a) !in edges && MentionsAgent(id, a) !in edges;
      }
    }
  }

  /** One iteration of the chunk loop, with the loop invariant of `LoadPdfEmbeddings` carried from `slots0` to `slots0 + [s]`. */
  method IngestChunkRecorded(g: GraphStore, s: Slot, artistNames: set<string>, agentNames: set<string>,
                             embed: string -> Embedding, distance: (Embedding, Embedding) -> CosineDistance,
                             ghost docs0: map<DocId, DocumentNode>, ghost edges0: seq<Edge>,
                             ghost created0: seq<DocId>, ghost slots0: seq<Slot>)
    returns (ghost created: seq<DocId>)
    requires g.Valid()
    requires artistNames <= g.artists.Keys && agentNames <= g.agents.Keys
    requires DocumentsAdded(docs0, g.documents, created0, slots0, embed)
    requires EdgesAdded(edges0, g.edges, docs0.Keys, g.documents, created0, slots0, artistNames, agentNames, embed, distance)
    modifies g`documents, g`edges, g`nextDocId
    ensures g.Valid()
    ensures DocumentsAdded(docs0, g.documents, created, slots0 + [s], embed)
    ensures EdgesAdded(edges0, g.edges, docs0.Keys, g.documents, created, slots0 + [s], artistNames, agentNames, embed, distance)
  {
    ghost var docs := g.documents;
    ghost var edges := g.edges;
    var id, added := IngestChunk(g, s, artistNames, agentNames, embed, distance);
    RecordChunk(edges0, edges, docs0, docs, created0, slots0, id, s, added, artistNames, agentNames, embed, distance);
    created := created0 + [id];
  }

  /**
   * The body of the page loop for page `i`: nothing when its text is empty,
   * otherwise one iteration of the chunk loop per chunk, in order. The loop
   * invariant of `LoadPdfEmbeddings` holds before with `slots0` and after
   * with the page's chunks appended.
   */
  method LoadPage(g: GraphStore, i: nat, page: Page, artistNames: set<string>, agentNames: set<string>,
                  embed: string -> Embedding, distance: (Embedding, Embedding) -> CosineDistance,
                  ghost docs0: map<DocId, DocumentNode>, ghost edges0: seq<Edge>,
                  ghost created0: seq<DocId>, ghost slots0: seq<Slot>)
    returns (ghost created: seq<DocId>)
    requires g.Valid()
    requires artistNames <= g.artists.Keys && agentNames <= g.agents.Keys
    requires DocumentsAdded(docs0, g.documents, created0, slots0, embed)
    requires EdgesAdded(edges0, g.edges, docs0.Keys, g.documents, created0, slots0, artistNames, agentNames, embed, distance)
    modifies g`documents, g`edges, g`nextDocId
    ensures g.Valid()
    ensures DocumentsAdded(docs0, g.documents, created, slots0 + PageSlots(i, page), embed)
    ensures EdgesAdded(edges0, g.edges, docs0.Keys, g.documents, created, slots0 + PageSlots(i, page),
                       artistNames, agentNames, embed, distance)
  {
    created := created0;
    if page.text == "" {
      assert slots0 + PageSlots(i, page) == slots0;
      return;
    }
    var chunks := page.chunks;
    ghost var done := slots0;
    var j := 0;
    while j < |chunks|
      invariant 0 <= j <= |chunks|
      invariant g.Valid()
      invariant done == slots0 + PageSlots(i, page)[..j]
      invariant DocumentsAdded(docs0, g.documents, created, done, embed)
      invariant EdgesAdded(edges0, g.edges, docs0.Keys, g.documents, created, done, artistNames, agentNames, embed, distance)
    {
      var slot := Slot(i, j, chunks[j]);
      created := IngestChunkRecorded(g, slot, artistNames, agentNames, embed, distance, docs0, edges0, created, done);
      done := done + [slot];
      assert PageSlots(i, page)[..j + 1] == PageSlots(i, page)[..j] + [slot];
      j := j + 1;
    }
    assert PageSlots(i, page)[..j] == PageSlots(i, page);
  }

  /**
   * The page and chunk loops of `load_pdf_embeddings_to_neo4j`. The artist and
   * agent name sets are read once, before the loops. Each chunk of each
   * non-empty page becomes one new Document node (`created` lists them in
   * order), and the relationships each one gets are exactly those described by
   * `EdgesAdded`. Artist and SalesAgent nodes are not touched.
   */
  method LoadPdfEmbeddings(g: GraphStore, pages: seq<Page>, embed: string -> Embedding,
                           distance: (Embedding, Embedding) -> CosineDistance)
    returns (ghost created: seq<DocId>)
    requires g.Valid()
    modifies g`documents, g`edges, g`nextDocId
    ensures g.Valid()
    ensures DocumentsAdded(old(g.documents), g.documents, created, Slots(pages), embed)
    ensures EdgesAdded(old(g.edges), g.edges, old(g.documents).Keys, g.documents, created, Slots(pages),
                       g.artists.Keys, g.agents.Keys, embed, distance)
  {
    var existingArtists := g.artists.Keys;
    var existingAgents := g.agents.Keys;
    ghost var docs0 := g.documents;
    ghost var edges0 := g.edges;
    created := [];
    var i := 0;
    while i < |pages|
      invariant 0 <= i <= |pages|
      invariant g.Valid()
      invariant DocumentsAdded(docs0, g.documents, created, Slots(pages[..i]), embed)
      invariant EdgesAdded(edges0, g.edges, docs0.Keys, g.documents, created, Slots(pages[..i]),
                           existingArtists, existingAgents, embed, distance)
    {
      created := LoadPage(g, i, pages[i], existingArtists, existingAgents, embed, distance,
                          docs0, edges0, created, Slots(pages[..i]));
      assert pages[..i + 1][..i] == pages[..i];
      i := i + 1;
    }
    assert pages[..i] == pages;
  }

  /** One iteration of the chunk loop keeps both halves of the loop invariant. */
  lemma RecordChunk(edges0: seq<Edge>, edges: seq<Edge>, docs0: map<DocId, DocumentNode>, docs: map<DocId, DocumentNode>,
                    created: seq<DocId>, slots: seq<Slot>, id: DocId, s: Slot, added: seq<Edge>,
                    artistNames: set<string>, agentNames: set<string>,
                    embed: string -> Embedding, distance: (Embedding, Embedding) -> CosineDistance)
    requires DocumentsAdded(docs0, docs, created, slots, embed)
    requires EdgesAdded(edges0, edges, docs0.Keys, docs, created, slots, artistNames, agentNames, embed, distance)
    requires id !in docs
    requires forall e :: e in edges ==> !FromDocument(e, id)
    requires multiset(added) == multiset(RelatedFor(id, embed(s.text), docs[id := ChunkNode(s, embed)], docs.Keys + {id}, distance))
                              + multiset(ArtistMentionsFor(id, s.text, artistNames))
                              + multiset(AgentMentionsFor(id, s.text, agentNames))
    ensures DocumentsAdded(docs0, docs[id := ChunkNode(s, embed)], created + [id], slots + [s], embed)
    ensures EdgesAdded(edges0, edges + added, docs0.Keys, docs[id := ChunkNode(s, embed)], created + [id], slots + [s],
                       artistNames, agentNames, embed, distance)
  {
    var docs' := docs[id := ChunkNode(s, embed)];
    var related := RelatedFor(id, embed(s.text), docs', docs.Keys + {id}, distance);
    ChunkEdgesMembers(id, added, related, ArtistMentionsFor(id, s.text, artistNames), AgentMentionsFor(id, s.text, agentNames));
    DocumentsAddedStep(docs0, docs, created, slots, id, s, embed);
    EdgesExtendStep(edges0, edges, created, id, added);
    RelatedRecordedStep(edges, docs0.Keys, docs, created, slots, id, s, added, embed, distance);
    MentionsRecordedStep(edges, docs.Keys, created, slots, id, s, added, artistNames, agentNames);
  }

  /**
   * After the loops, each new Document is chunk `chunk_index` of the
   * non-empty page `page_number`, carrying that chunk's text and vector.
   */
  lemma NewDocumentsAreChunks(docs0: map<DocId, DocumentNode>, docs: map<DocId, DocumentNode>, created: seq<DocId>,
                              pages: seq<Page>, embed: string -> Embedding)
    requires DocumentsAdded(docs0, docs, created, Slots(pages), embed)
    ensures forall k :: 0 <= k < |created| ==>
              created[k] !in docs0 && created[k] in docs &&
              IsChunkOf(pages, Slot(docs[created[k]].pageNumber, docs[created[k]].chunkIndex, docs[created[k]].text)) &&
              docs[created[k]].embedding == Some(embed(docs[created[k]].text))
  {
    var slots := Slots(pages);
    forall k | 0 <= k < |created|
      ensures IsChunkOf(pages, Slot(docs[created[k]].pageNumber, docs[created[k]].chunkIndex, docs[created[k]].text))
    {
      assert Slot(docs[created[k]].pageNumber, docs[created[k]].chunkIndex, docs[created[k]].text) == slots[k];
      SlotsIff(pages, slots[k]);
    }
  }

  /** After the loops, chunk j of every non-empty page i has a new Document with page_number i and chunk_index j. */
  lemma EveryChunkIngested(docs0: map<DocId, DocumentNode>, docs: map<DocId, DocumentNode>, created: seq<DocId>,
                           pages: seq<Page>, embed: string -> Embedding, i: nat, j: nat)
    requires DocumentsAdded(docs0, docs, created, Slots(pages), embed)
    requires i < |pages| && pages[i].text != "" && j < |pages[i].chunks|
    ensures exists k :: 0 <= k < |created| && docs[created[k]] == DocumentNode(pages[i].chunks[j], i, j, Some(embed(pages[i].chunks[j])))
  {
    var slots := Slots(pages);
    var sl := Slot(i, j, pages[i].chunks[j]);
    SlotsIff(pages, sl);
    var k :| 0 <= k < |slots| && slots[k] == sl;
    assert docs[created[k]] == ChunkNode(sl, embed);
  }

  /** No two new Documents share a (page_number, chunk_index): each chunk is ingested once. */
  lemma NewDocumentsDistinctChunks(docs0: map<DocId, DocumentNode>, docs: map<DocId, DocumentNode>, created: seq<DocId>,
                                   pages: seq<Page>, embed: string -> Embedding)
    requires DocumentsAdded(docs0, docs, created, Slots(pages), embed)
    ensures forall k1, k2 :: 0 <= k1 < k2 < |created| ==>
              docs[created[k1]].pageNumber != docs[created[k2]].pageNumber || docs[created[k1]].chunkIndex != docs[created[k2]].chunkIndex
  {
    var slots := Slots(pages);
    SlotsInOrder(pages);
    forall k1, k2 | 0 <= k1 < k2 < |created|
      ensures docs[created[k1]].pageNumber != docs[created[k2]].pageNumber || docs[created[k1]].chunkIndex != docs[created[k2]].chunkIndex
    {
      assert VisitedBefore(slots[k1], slots[k2]);
    }
  }

  /**
   * Every relationship the loops add leaves a new Document: a RELATED_TO goes
   * to another Document whose embedding is a list and is similar to the
   * chunk's vector (so never to the Document itself), and a MENTIONS goes to
   * an artist or agent of the name sets whose name occurs in the chunk.
   */
  lemma IngestedEdgesSound(edges0: seq<Edge>, edges: seq<Edge>, docs0: map<DocId, DocumentNode>, docs: map<DocId, DocumentNode>,
                           created: seq<DocId>, slots: seq<Slot>, artistNames: set<string>, agentNames: set<string>,
                           embed: string -> Embedding, distance: (Embedding, Embedding) -> CosineDistance)
    requires DocumentsAdded(docs0, docs, created, slots, embed)
    requires EdgesAdded(edges0, edges, docs0.Keys, docs, created, slots, artistNames, agentNames, embed, distance)
    ensures |edges| >= |edges0| && edges[..|edges0|] == edges0
    ensures forall e :: e in edges[|edges0|..] ==> !e.Managed? && e.doc in docs && e.doc !in docs0
    ensures forall e :: e in edges[|edges0|..] && e.RelatedTo? ==>
              e.target != e.doc && e.target in docs && docs[e.doc].embedding.Some? &&
              LinksTo(distance, docs[e.doc].embedding.value, docs[e.target])
    ensures forall e :: e in edges[|edges0|..] && e.MentionsArtist? ==> e.artist in artistNames && NameOccurs(e.artist, docs[e.doc].text)
    ensures forall e :: e in edges[|edges0|..] && e.MentionsAgent? ==> e.agent in agentNames && NameOccurs(e.agent, docs[e.doc].text)
  {
    forall e | e in edges[|edges0|..]
      ensures e.doc in docs && e.doc !in docs0
      ensures e.RelatedTo? ==> e.target != e.doc && e.target in docs && docs[e.doc].embedding.Some? &&
                               LinksTo(distance, docs[e.doc].embedding.value, docs[e.target])
      ensures e.MentionsArtist? ==> e.artist in artistNames && NameOccurs(e.artist, docs[e.doc].text)
      ensures e.MentionsAgent? ==> e.agent in agentNames && NameOccurs(e.agent, docs[e.doc].text)
    {
      var k :| 0 <= k < |created| && created[k] == e.doc;
      assert e in edges;
      assert docs[e.doc] == ChunkNode(slots[k], embed);
    }
  }
}
