/**
 The knowledge index: one document per source, and its chunks paired with their embeddings. Ingestion is
 content-addressed: an unchanged body is left alone, a changed one has its chunks replaced wholesale.
 The digest and the embedding provider are parameters.
 */
module Ingestion {
  import opened Common
  import Chunking

  const EMBED_BATCH_SIZE := 64

  type Vector = seq<real>

  /** What the provider answers for a batch of texts. */
  datatype Embedded = Embedded(vectors: seq<Vector>, model: string)

  datatype Source = Source(kind: string, ref: string)

  datatype Document = Document(
    id: nat, title: string, category: Option<string>, body: string, account: Option<nat>, digest: string,
    ingestedAt: int)

  datatype Row = Row(documentId: nat, index: nat, content: string, start: nat, end: nat, embedding: Vector,
                     model: string)

  /** The stored corpus. `nextId` stands for the supply of fresh identifiers. */
  datatype Index = Index(documents: map<Source, Document>, rows: seq<Row>, nextId: nat)

  /** One document to ingest. */
  datatype Spec = Spec(source: Source, title: string, category: Option<string>, body: string, account: Option<nat>)

  /** The two services ingestion depends on. */
  datatype Services = Services(hash: string -> string, embed: seq<string> -> Embedded)

  datatype IngestionError = MisalignedVectors

  // ---- What ingestion does, as one function -------------------------------------------------------------

  function ChunksOf(body: string): seq<Chunking.Chunk> {
    Chunking.Chunked(body, Chunking.DEFAULT_MAX_CHARS, Chunking.DEFAULT_OVERLAP_CHARS).value
  }

  function Texts(chunks: seq<Chunking.Chunk>): (texts: seq<string>)
    ensures |texts| == |chunks| && forall i :: 0 <= i < |chunks| ==> texts[i] == chunks[i].text
  {
    seq(|chunks|, i requires 0 <= i < |chunks| => chunks[i].text)
  }

  function RowFor(id: nat, c: Chunking.Chunk, v: Vector, model: string): Row {
    Row(id, c.index, c.text, c.start, c.end, v, model)
  }

  function Paired(id: nat, chunks: seq<Chunking.Chunk>, vectors: seq<Vector>, model: string): (rows: seq<Row>)
    requires |chunks| == |vectors|
    ensures |rows| == |chunks|
  {
    seq(|chunks|, i requires 0 <= i < |chunks| => RowFor(id, chunks[i], vectors[i], model))
  }

  /** The rows of these chunks, embedded batch by batch; None as soon as a batch comes back misaligned. */
  function EmbedRows(embed: seq<string> -> Embedded, id: nat, chunks: seq<Chunking.Chunk>, batchSize: nat)
    : Option<seq<Row>>
    requires batchSize >= 1
    decreases |chunks|
  {
    if chunks == [] then Some([])
    else
      var batch := chunks[..Min(batchSize, |chunks|)];
      var answer := embed(Texts(batch));
      if |answer.vectors| != |batch| then None
      else
        match EmbedRows(embed, id, chunks[|batch|..], batchSize)
        case None => None
        case Some(rest) => Some(Paired(id, batch, answer.vectors, answer.model) + rest)
  }

  /** The rows of one document, in stored order. */
  function RowsOf(rows: seq<Row>, id: nat): seq<Row> {
    if rows == [] then []
    else if rows[0].documentId == id then [rows[0]] + RowsOf(rows[1..], id)
    else RowsOf(rows[1..], id)
  }

  function Without(rows: seq<Row>, id: nat): seq<Row> {
    if rows == [] then []
    else if rows[0].documentId == id then Without(rows[1..], id)
    else [rows[0]] + Without(rows[1..], id)
  }

  predicate Unchanged(services: Services, index: Index, spec: Spec) {
    spec.source in index.documents && index.documents[spec.source].digest == services.hash(spec.body)
  }

  function IdFor(index: Index, spec: Spec): nat {
    if spec.source in index.documents then index.documents[spec.source].id else index.nextId
  }

  function NewDocument(services: Services, index: Index, spec: Spec, now: int): Document {
    Document(IdFor(index, spec), spec.title, spec.category, spec.body, spec.account, services.hash(spec.body), now)
  }

  /** The index with the document in place and these rows instead of its former ones. */
  function Stored(services: Services, index: Index, spec: Spec, now: int, rows: seq<Row>): Index {
    var known := spec.source in index.documents;
    Index(index.documents[spec.source := NewDocument(services, index, spec, now)],
          (if known then Without(index.rows, IdFor(index, spec)) else index.rows) + rows,
          if known then index.nextId else index.nextId + 1)
  }

  /** The index after ingesting one document, and how many chunks were written. */
  function Ingested(services: Services, index: Index, spec: Spec, now: int): Result<(Index, nat), IngestionError> {
    if Unchanged(services, index, spec) then Ok((index, 0))
    else
      match EmbedRows(services.embed, IdFor(index, spec), ChunksOf(spec.body), EMBED_BATCH_SIZE)
      case None => Err(MisalignedVectors)
      case Some(rows) => Ok((Stored(services, index, spec, now, rows), |rows|))
  }

  datatype Counters = Counters(processed: nat, updated: nat, leftAlone: nat, chunksWritten: nat)

  function Count(c: Counters, written: nat): Counters {
    Counters(c.processed + 1, c.updated + (if written > 0 then 1 else 0), c.leftAlone + (if written > 0 then 0 else 1),
             c.chunksWritten + written)
  }

  /** The index and the counters after the first `n` documents, or the first error. */
  function IngestedMany(services: Services, index: Index, specs: seq<Spec>, now: int, n: nat)
    : Result<(Index, Counters), IngestionError>
    requires n <= |specs|
  {
    if n == 0 then Ok((index, Counters(0, 0, 0, 0)))
    else
      match IngestedMany(services, index, specs, now, n - 1)
      case Err(e) => Err(e)
      case Ok((before, counters)) =>
        match Ingested(services, before, specs[n - 1], now)
        case Err(e) => Err(e)
        case Ok((after, written)) => Ok((after, Count(counters, written)))
  }

  // ---- The session ------------------------------------------------------------------------------------------

  class KnowledgeIndex {
    const services: Services
    var documents: map<Source, Document>
    var rows: seq<Row>
    var nextId: nat

    constructor (services: Services)
      ensures this.services == services && Value() == Index(map[], [], 0)
    {
      this.services := services;
      documents, rows, nextId := map[], [], 0;
    }

    function Value(): Index
      reads this
    {
      Index(documents, rows, nextId)
    }

    /** Add the rows of one batch. */
    method StoreBatch(id: nat, batch: seq<Chunking.Chunk>, answer: Embedded)
      requires |batch| == |answer.vectors|
      modifies this`rows
      ensures rows == old(rows) + Paired(id, batch, answer.vectors, answer.model)
    {
      ghost var pairs := Paired(id, batch, answer.vectors, answer.model);
      for i := 0 to |batch|
        invariant rows == old(rows) + pairs[..i]
      {
        rows := rows + [RowFor(id, batch[i], answer.vectors[i], answer.model)];
        assert pairs[..i + 1] == pairs[..i] + [pairs[i]];
      }
    }

    /**
     Ingest one document. On an error the session is left half done, for its owner to roll back, but no
     other document and no other document's rows are touched.
     */
    method IngestDocument(spec: Spec, now: int) returns (r: Result<nat, IngestionError>)
      modifies this
      ensures match Ingested(services, old(Value()), spec, now)
              case Ok((after, written)) => Value() == after && r == Ok(written)
              case Err(e) =>
                && r == Err(e)
                && documents - {spec.source} == old(documents) - {spec.source}
                && Without(rows, IdFor(old(Value()), spec)) == Without(old(rows), IdFor(old(Value()), spec))
    {
      var digest := services.hash(spec.body);
      if spec.source in documents && documents[spec.source].digest == digest {
        return Ok(0);
      }
      var id;
      if spec.source !in documents {
        id := nextId;
        nextId := nextId + 1;
      } else {
        id := documents[spec.source].id;
        WithoutTwice(rows, id);
        rows := Without(rows, id);
      }
      var document := Document(id, spec.title, spec.category, spec.body, spec.account, digest, now);
      documents := documents[spec.source := document];
      r := EmbedAndStore(id, spec.body);
    }

    /** Chunk the body, embed the chunks batch by batch, and store each batch as it comes back. */
    method EmbedAndStore(id: nat, body: string) returns (r: Result<nat, IngestionError>)
      modifies this`rows
      ensures match EmbedRows(services.embed, id, ChunksOf(body), EMBED_BATCH_SIZE)
              case Some(added) => rows == old(rows) + added && r == Ok(|added|)
              case None => r == Err(MisalignedVectors) && Without(rows, id) == Without(old(rows), id)
    {
      hide EmbedRows, Onto, Paired, Texts, Without, Chunking.Chunks;
      var chunked := Chunking.ChunkText(body, Chunking.DEFAULT_MAX_CHARS, Chunking.DEFAULT_OVERLAP_CHARS);
      var chunks := chunked.value;
      if chunks == [] {
        FirstBatch(services.embed, id, chunks);
        return Ok(0);
      }
      var written, start := 0, 0;
      ghost var base, done: seq<Row> := rows, [];
      assert chunks[0..] == chunks;
      FirstBatch(services.embed, id, chunks);
      while start < |chunks|
        invariant 0 <= start <= |chunks|
        invariant rows == base + done && written == |done| && forall row :: row in done ==> row.documentId == id
        invariant EmbedRows(services.embed, id, chunks, EMBED_BATCH_SIZE)
                  == Onto(done, EmbedRows(services.embed, id, chunks[start..], EMBED_BATCH_SIZE))
      {
        var batch := chunks[start..Min(start + EMBED_BATCH_SIZE, |chunks|)];
        NextBatch(services.embed, id, chunks, start, done);
        var answer := services.embed(Texts(batch));
        if |answer.vectors| != |batch| {
          WithoutAppended(base, done, id);
          return Err(MisalignedVectors);
        }
        PairedBelong(id, batch, answer.vectors, answer.model);
        StoreBatch(id, batch, answer);
        done := done + Paired(id, batch, answer.vectors, answer.model);
        written := written + |batch|;
        start := start + |batch|;
      }
      LastBatch(services.embed, id, chunks, done);
      r := Ok(written);
    }

    /** Ingest documents one after another, counting which of them had chunks written. */
    method IngestMany(specs: seq<Spec>, now: int) returns (r: Result<Counters, IngestionError>)
      modifies this
      ensures match IngestedMany(services, old(Value()), specs, now, |specs|)
              case Ok((after, counters)) => Value() == after && r == Ok(counters)
              case Err(e) => r == Err(e)
    {
      hide Ingested, Without;
      var updated, leftAlone, chunksWritten := 0, 0, 0;
      for i := 0 to |specs|
        invariant IngestedMany(services, old(Value()), specs, now, i)
                  == Ok((Value(), Counters(i, updated, leftAlone, chunksWritten)))
      {
        var one := IngestDocument(specs[i], now);
        if one.Err? {
          ErrorsStop(services, old(Value()), specs, now, i + 1);
          return Err(one.error);
        }
        chunksWritten := chunksWritten + one.value;
        if one.value > 0 {
          updated := updated + 1;
        } else {
          leftAlone := leftAlone + 1;
        }
      }
      r := Ok(Counters(|specs|, updated, leftAlone, chunksWritten));
    }

    /** The ingestion command: policies, then contracts, in one transaction that commits only at the end. */
    method IngestCorpus(policies: seq<Spec>, contracts: seq<Spec>, now: int) returns (ok: bool)
      modifies this
      ensures ok ==> exists after, c, after', c' ::
                && IngestedMany(services, old(Value()), policies, now, |policies|) == Ok((after, c))
                && IngestedMany(services, after, contracts, now, |contracts|) == Ok((after', c'))
                && Value() == after'
      ensures !ok ==> Value() == old(Value())
    {
      var committed := Value();
      var first := IngestMany(policies, now);
      if first.Ok? {
        var second := IngestMany(contracts, now);
        if second.Ok? {
          return true;
        }
      }
      documents, rows, nextId := committed.documents, committed.rows, committed.nextId;
      ok := false;
    }
  }

  function Onto(done: seq<Row>, rest: Option<seq<Row>>): Option<seq<Row>> {
    if rest.None? then None else Some(done + rest.value)
  }

  lemma FirstBatch(embed: seq<string> -> Embedded, id: nat, chunks: seq<Chunking.Chunk>)
    ensures Onto([], EmbedRows(embed, id, chunks, EMBED_BATCH_SIZE)) == EmbedRows(embed, id, chunks, EMBED_BATCH_SIZE)
    ensures chunks == [] ==> EmbedRows(embed, id, chunks, EMBED_BATCH_SIZE) == Some([])
  {
    var rest := EmbedRows(embed, id, chunks, EMBED_BATCH_SIZE);
    if rest.Some? { assert [] + rest.value == rest.value; }
  }

  lemma NextBatch(embed: seq<string> -> Embedded, id: nat, chunks: seq<Chunking.Chunk>, start: nat, done: seq<Row>)
    requires start < |chunks|
    ensures var batch := chunks[start..Min(start + EMBED_BATCH_SIZE, |chunks|)];
            var answer := embed(Texts(batch));
            Onto(done, EmbedRows(embed, id, chunks[start..], EMBED_BATCH_SIZE)) ==
            if |answer.vectors| != |batch| then None
            else Onto(done + Paired(id, batch, answer.vectors, answer.model),
                      EmbedRows(embed, id, chunks[start + |batch|..], EMBED_BATCH_SIZE))
  {
    hide Texts, Paired;
    var left := chunks[start..];
    var batch := chunks[start..Min(start + EMBED_BATCH_SIZE, |chunks|)];
    assert batch == left[..Min(EMBED_BATCH_SIZE, |left|)];
    assert chunks[start + |batch|..] == left[|batch|..];
    var answer := embed(Texts(batch));
    if |answer.vectors| == |batch| {
      var rest := EmbedRows(embed, id, left[|batch|..], EMBED_BATCH_SIZE);
      if rest.Some? {
        var added := Paired(id, batch, answer.vectors, answer.model);
        assert done + (added + rest.value) == (done + added) + rest.value;
      }
    }
  }

  lemma PairedBelong(id: nat, chunks: seq<Chunking.Chunk>, vectors: seq<Vector>, model: string)
    requires |chunks| == |vectors|
    ensures forall row :: row in Paired(id, chunks, vectors, model) ==> row.documentId == id
  {
  }

  lemma LastBatch(embed: seq<string> -> Embedded, id: nat, chunks: seq<Chunking.Chunk>, done: seq<Row>)
    ensures Onto(done, EmbedRows(embed, id, chunks[|chunks|..], EMBED_BATCH_SIZE)) == Some(done)
  {
    assert chunks[|chunks|..] == [] && done + [] == done;
  }

  lemma {:induction false} ErrorsStop(services: Services, index: Index, specs: seq<Spec>, now: int, n: nat)
    requires n <= |specs| && IngestedMany(services, index, specs, now, n).Err?
    ensures IngestedMany(services, index, specs, now, |specs|) == IngestedMany(services, index, specs, now, n)
    decreases |specs| - n
  {
    hide Ingested;
    if n < |specs| { ErrorsStop(services, index, specs, now, n + 1); }
  }

  // ---- Rows of one document ---------------------------------------------------------------------------------

  lemma {:induction false} WithoutTwice(rows: seq<Row>, id: nat)
    ensures Without(Without(rows, id), id) == Without(rows, id)
  {
    if rows != [] { WithoutTwice(rows[1..], id); }
  }

  lemma {:induction false} WithoutAppended(rows: seq<Row>, more: seq<Row>, id: nat)
    requires forall row :: row in more ==> row.documentId == id
    ensures Without(rows + more, id) == Without(rows, id)
  {
    if rows != [] {
      assert (rows + more)[1..] == rows[1..] + more;
      WithoutAppended(rows[1..], more, id);
    } else if more != [] {
      assert rows + more == more;
      WithoutAppended(rows, more[1..], id);
      assert rows + more[1..] == more[1..];
    }
  }

  lemma {:induction false} RowsOfAppended(rows: seq<Row>, more: seq<Row>, id: nat)
    ensures RowsOf(rows + more, id) == RowsOf(rows, id) + RowsOf(more, id)
  {
    if rows == [] {
      assert rows + more == more;
    } else {
      assert (rows + more)[1..] == rows[1..] + more;
      RowsOfAppended(rows[1..], more, id);
    }
  }

  lemma {:induction false} RowsOfWithout(rows: seq<Row>, gone: nat, id: nat)
    ensures RowsOf(Without(rows, gone), id) == if id == gone then [] else RowsOf(rows, id)
    ensures forall row :: row in Without(rows, gone) ==> row in rows
  {
    if rows != [] { RowsOfWithout(rows[1..], gone, id); }
  }

  lemma {:induction false} RowsOfOwn(rows: seq<Row>, own: nat, id: nat)
    requires forall row :: row in rows ==> row.documentId == own
    ensures RowsOf(rows, id) == if id == own then rows else []
  {
    if rows != [] { RowsOfOwn(rows[1..], own, id); }
  }

  lemma {:induction false} NoRowsYet(rows: seq<Row>, id: nat)
    requires forall row :: row in rows ==> row.documentId < id
    ensures RowsOf(rows, id) == []
  {
    if rows != [] { NoRowsYet(rows[1..], id); }
  }

  lemma {:induction false} EmbeddedBelong(embed: seq<string> -> Embedded, id: nat, chunks: seq<Chunking.Chunk>,
                                          batchSize: nat)
    requires batchSize >= 1 && EmbedRows(embed, id, chunks, batchSize).Some?
    ensures forall row :: row in EmbedRows(embed, id, chunks, batchSize).value ==> row.documentId == id
    decreases |chunks|
  {
    hide Texts, Paired;
    if chunks != [] {
      var batch := chunks[..Min(batchSize, |chunks|)];
      var answer := embed(Texts(batch));
      PairedBelong(id, batch, answer.vectors, answer.model);
      EmbeddedBelong(embed, id, chunks[|batch|..], batchSize);
    }
  }

  // ---- Faithfulness -----------------------------------------------------------------------------------------

  /** The stored rows of this document are its body's chunks, in order, each with its embedding. */
  ghost predicate FaithfulDocument(services: Services, rows: seq<Row>, d: Document) {
    && d.digest == services.hash(d.body)
    && EmbedRows(services.embed, d.id, ChunksOf(d.body), EMBED_BATCH_SIZE) == Some(RowsOf(rows, d.id))
  }

  ghost predicate FreshIds(index: Index) {
    && (forall s :: s in index.documents ==> index.documents[s].id < index.nextId)
    && (forall row :: row in index.rows ==> row.documentId < index.nextId)
    && (forall s, t :: s in index.documents && t in index.documents && s != t ==>
          index.documents[s].id != index.documents[t].id)
  }

  ghost predicate Faithful(services: Services, index: Index) {
    FreshIds(index) && forall s :: s in index.documents ==> FaithfulDocument(services, index.rows, index.documents[s])
  }

  /** Ingesting a document replaces exactly its own rows. */
  lemma IngestedRows(services: Services, index: Index, spec: Spec, now: int, id: nat)
    requires FreshIds(index) && !Unchanged(services, index, spec) && Ingested(services, index, spec, now).Ok?
    ensures var after := Ingested(services, index, spec, now).value.0;
            RowsOf(after.rows, id) == if id == IdFor(index, spec)
                                      then EmbedRows(services.embed, id, ChunksOf(spec.body), EMBED_BATCH_SIZE).value
                                      else RowsOf(index.rows, id)
    ensures forall row :: row in Ingested(services, index, spec, now).value.0.rows ==>
              row.documentId == IdFor(index, spec) || row in index.rows
  {
    hide EmbedRows, ChunksOf, RowsOf, Without;
    var own := IdFor(index, spec);
    var base := if spec.source in index.documents then Without(index.rows, own) else index.rows;
    var added := EmbedRows(services.embed, own, ChunksOf(spec.body), EMBED_BATCH_SIZE).value;
    EmbeddedBelong(services.embed, own, ChunksOf(spec.body), EMBED_BATCH_SIZE);
    RowsOfAppended(base, added, id);
    RowsOfOwn(added, own, id);
    RowsOfWithout(index.rows, own, id);
    if spec.source !in index.documents { NoRowsYet(index.rows, own); }
  }

  lemma IngestionKeepsFresh(services: Services, index: Index, spec: Spec, now: int)
    requires FreshIds(index) && Ingested(services, index, spec, now).Ok?
    ensures FreshIds(Ingested(services, index, spec, now).value.0)
  {
    hide EmbedRows, ChunksOf, RowsOf, Without;
    if !Unchanged(services, index, spec) { IngestedRows(services, index, spec, now, 0); }
  }

  /** Every document in the corpus stays faithful, whichever one is ingested. */
  lemma IngestionKeepsFaithful(services: Services, index: Index, spec: Spec, now: int)
    requires Faithful(services, index) && Ingested(services, index, spec, now).Ok?
    ensures Faithful(services, Ingested(services, index, spec, now).value.0)
  {
    hide EmbedRows, ChunksOf, RowsOf, Without, FreshIds;
    IngestionKeepsFresh(services, index, spec, now);
    if !Unchanged(services, index, spec) {
      var after := Ingested(services, index, spec, now).value.0;
      forall s | s in after.documents ensures FaithfulDocument(services, after.rows, after.documents[s]) {
        IngestedRows(services, index, spec, now, after.documents[s].id);
        OtherIds(index, spec, s);
      }
    }
  }

  lemma OtherIds(index: Index, spec: Spec, s: Source)
    requires FreshIds(index)
    ensures s != spec.source && s in index.documents ==> index.documents[s].id != IdFor(index, spec)
  {
  }

  // ---- What the corpus holds --------------------------------------------------------------------------------

  /** No two of these bodies share a digest. */
  ghost predicate CollisionFree(services: Services, bodies: set<string>) {
    forall x, y :: x in bodies && y in bodies && services.hash(x) == services.hash(y) ==> x == y
  }

  ghost predicate BodiesWithin(index: Index, bodies: set<string>) {
    forall s :: s in index.documents ==> index.documents[s].body in bodies
  }

  /** One ingestion stores the body it was given, and touches no other document. */
  lemma BodyIsStored(services: Services, index: Index, spec: Spec, now: int, bodies: set<string>)
    requires Faithful(services, index) && Ingested(services, index, spec, now).Ok?
    requires CollisionFree(services, bodies) && BodiesWithin(index, bodies) && spec.body in bodies
    ensures var after := Ingested(services, index, spec, now).value.0;
            && spec.source in after.documents && after.documents[spec.source].body == spec.body
            && BodiesWithin(after, bodies)
            && (forall s :: s != spec.source ==> (s in after.documents <==> s in index.documents)
                                                 && (s in index.documents ==> after.documents[s] == index.documents[s]))
  {
    hide EmbedRows, ChunksOf, RowsOf, Without, FreshIds;
    if Unchanged(services, index, spec) {
      assert FaithfulDocument(services, index.rows, index.documents[spec.source]);
    }
  }

  /**
   After any run of ingestions over any faithful corpus, the corpus is faithful, and every source that was
   ingested holds the body it was last given, with exactly that body's chunks and their embeddings.
   */
  lemma {:induction false} CorpusHoldsLastBodies(services: Services, index: Index, specs: seq<Spec>, now: int,
                                                 n: nat, bodies: set<string>)
    requires Faithful(services, index) && BodiesWithin(index, bodies) && CollisionFree(services, bodies)
    requires n <= |specs| && (forall k :: 0 <= k < |specs| ==> specs[k].body in bodies)
    requires IngestedMany(services, index, specs, now, n).Ok?
    ensures var after := IngestedMany(services, index, specs, now, n).value.0;
            && Faithful(services, after) && BodiesWithin(after, bodies)
            && (forall j :: 0 <= j < n && LastOf(specs, j, n) ==>
                  specs[j].source in after.documents && after.documents[specs[j].source].body == specs[j].body)
  {
    hide Ingested, Faithful, CollisionFree;
    if n > 0 {
      CorpusHoldsLastBodies(services, index, specs, now, n - 1, bodies);
      var before := IngestedMany(services, index, specs, now, n - 1).value.0;
      BodyIsStored(services, before, specs[n - 1], now, bodies);
      IngestionKeepsFaithful(services, before, specs[n - 1], now);
      forall j | 0 <= j < n - 1 && LastOf(specs, j, n)
        ensures LastOf(specs, j, n - 1) && specs[j].source != specs[n - 1].source
      {
      }
    }
  }

  /** No document after `j` among the first `n` has the same source. */
  ghost predicate LastOf(specs: seq<Spec>, j: nat, n: nat)
    requires j < n <= |specs|
  {
    forall k :: j < k < n ==> specs[k].source != specs[j].source
  }

  // ---- Idempotence ------------------------------------------------------------------------------------------

  /** Ingesting the same body again writes nothing and changes nothing, not even a new title or scope. */
  lemma AgainIsANoOp(services: Services, index: Index, spec: Spec, spec': Spec, now: int, later: int)
    requires Ingested(services, index, spec, now).Ok?
    requires spec'.source == spec.source && spec'.body == spec.body
    ensures var after := Ingested(services, index, spec, now).value.0;
            Ingested(services, after, spec', later) == Ok((after, 0))
  {
    hide EmbedRows, ChunksOf, Without;
  }

  /** Running the same documents again, each source once, writes nothing at all. */
  lemma {:induction false} SecondRunWritesNothing(services: Services, index: Index, specs: seq<Spec>, now: int,
                                                  later: int, n: nat)
    requires n <= |specs| && IngestedMany(services, index, specs, now, |specs|).Ok?
    requires forall i, j :: 0 <= i < j < |specs| ==> specs[i].source != specs[j].source
    ensures var after := IngestedMany(services, index, specs, now, |specs|).value.0;
            IngestedMany(services, after, specs, later, n) == Ok((after, Counters(n, 0, n, 0)))
  {
    hide Ingested;
    if n > 0 {
      SecondRunWritesNothing(services, index, specs, now, later, n - 1);
      StaysUnchanged(services, index, specs, now, |specs|, n - 1);
      UnchangedIsANoOp(services, IngestedMany(services, index, specs, now, |specs|).value.0, specs[n - 1], later);
    }
  }

  lemma UnchangedIsANoOp(services: Services, index: Index, spec: Spec, now: int)
    requires Unchanged(services, index, spec)
    ensures Ingested(services, index, spec, now) == Ok((index, 0))
  {
  }

  lemma {:induction false} StaysUnchanged(services: Services, index: Index, specs: seq<Spec>, now: int, n: nat, j: nat)
    requires j < n <= |specs| && IngestedMany(services, index, specs, now, n).Ok?
    requires forall i, j :: 0 <= i < j < |specs| ==> specs[i].source != specs[j].source
    ensures Unchanged(services, IngestedMany(services, index, specs, now, n).value.0, specs[j])
  {
    hide EmbedRows, ChunksOf, Without;
    if j < n - 1 {
      StaysUnchanged(services, index, specs, now, n - 1, j);
      assert specs[j].source != specs[n - 1].source;
    }
  }

  /**
   Zero chunks written means the body was unchanged, as documented, or that the new body is blank: then the
   stored document did change, and it is counted among the unchanged ones.
   */
  lemma ZeroWrittenIff(services: Services, index: Index, spec: Spec, now: int)
    requires Ingested(services, index, spec, now).Ok?
    ensures Ingested(services, index, spec, now).value.1 == 0
            <==> Unchanged(services, index, spec) || forall p :: 0 <= p < |spec.body| ==> Chunking.IsSpace(spec.body[p])
    ensures Ingested(services, index, spec, now).value.0 == index <==> Unchanged(services, index, spec)
  {
    hide EmbedRows, ChunksOf, Without;
    if !Unchanged(services, index, spec) {
      OneRowPerChunk(services.embed, IdFor(index, spec), ChunksOf(spec.body), EMBED_BATCH_SIZE);
      BlankMeansNoChunks(spec.body);
      var after := Ingested(services, index, spec, now).value.0;
      assert after.documents[spec.source].digest == services.hash(spec.body);
    }
  }

  lemma {:induction false} OneRowPerChunk(embed: seq<string> -> Embedded, id: nat, chunks: seq<Chunking.Chunk>,
                                          batchSize: nat)
    requires batchSize >= 1 && EmbedRows(embed, id, chunks, batchSize).Some?
    ensures |EmbedRows(embed, id, chunks, batchSize).value| == |chunks|
    decreases |chunks|
  {
    hide Texts;
    if chunks != [] { OneRowPerChunk(embed, id, chunks[Min(batchSize, |chunks|)..], batchSize); }
  }

  lemma BlankMeansNoChunks(body: string)
    ensures ChunksOf(body) == [] <==> forall p :: 0 <= p < |body| ==> Chunking.IsSpace(body[p])
  {
    hide Chunking.Chunks, Chunking.Windows;
    var max, overlap := Chunking.DEFAULT_MAX_CHARS, Chunking.DEFAULT_OVERLAP_CHARS;
    if p :| 0 <= p < |body| && !Chunking.IsSpace(body[p]) {
      Chunking.NothingIsLost(body, max, overlap, p);
    } else if body != [] {
      var windows := Chunking.WindowsOf(body, max, overlap);
      Chunking.StripEmpty(body);
      Chunking.BlankHasNoChunks(body, windows, 0);
    }
  }

  // ---- What is stored ---------------------------------------------------------------------------------------

  /** The chunks that are embedded together with chunk `k`: 64 at a time, the last ones fewer. */
  function BatchOf(chunks: seq<Chunking.Chunk>, k: nat): seq<Chunking.Chunk>
    requires k < |chunks|
  {
    chunks[k - k % 64..Min(k - k % 64 + 64, |chunks|)]
  }

  /** Row `k` holds chunk `k` and the vector the provider gave for it, in its place among its batch. */
  ghost predicate Holds(embed: seq<string> -> Embedded, id: nat, chunks: seq<Chunking.Chunk>, rows: seq<Row>, k: nat)
    requires k < |chunks| == |rows|
  {
    var answer := embed(Texts(BatchOf(chunks, k)));
    && |answer.vectors| == |BatchOf(chunks, k)| && k % 64 < |answer.vectors|
    && rows[k].documentId == id && rows[k].index == chunks[k].index && rows[k].content == chunks[k].text
    && rows[k].start == chunks[k].start && rows[k].end == chunks[k].end
    && rows[k].embedding == answer.vectors[k % 64] && rows[k].model == answer.model
  }

  lemma FirstBatchHolds(embed: seq<string> -> Embedded, id: nat, chunks: seq<Chunking.Chunk>, rows: seq<Row>, k: nat)
    requires k < |chunks| == |rows| && k < 64
    requires var batch := chunks[..Min(64, |chunks|)];
             var answer := embed(Texts(batch));
             |answer.vectors| == |batch| && rows[k] == RowFor(id, batch[k], answer.vectors[k], answer.model)
    ensures Holds(embed, id, chunks, rows, k)
  {
    assert BatchOf(chunks, k) == chunks[..Min(64, |chunks|)];
  }

  lemma LaterBatchHolds(embed: seq<string> -> Embedded, id: nat, chunks: seq<Chunking.Chunk>, rows: seq<Row>, k: nat)
    requires 64 <= k < |chunks| == |rows| && Holds(embed, id, chunks[64..], rows[64..], k - 64)
    ensures Holds(embed, id, chunks, rows, k)
  {
    hide BatchOf, Texts;
    SameBatch(chunks, k);
  }

  lemma {:induction false} EmbeddedRowsHold(embed: seq<string> -> Embedded, id: nat, chunks: seq<Chunking.Chunk>)
    requires EmbedRows(embed, id, chunks, EMBED_BATCH_SIZE).Some?
    ensures |EmbedRows(embed, id, chunks, EMBED_BATCH_SIZE).value| == |chunks|
    ensures forall k :: 0 <= k < |chunks| ==>
              Holds(embed, id, chunks, EmbedRows(embed, id, chunks, EMBED_BATCH_SIZE).value, k)
    decreases |chunks|
  {
    hide Holds, Texts, BatchOf, RowFor;
    if chunks != [] {
      var size := Min(64, |chunks|);
      var batch, rest := chunks[..size], chunks[size..];
      var answer := embed(Texts(batch));
      EmbeddedRowsHold(embed, id, rest);
      var rows := EmbedRows(embed, id, chunks, EMBED_BATCH_SIZE).value;
      var later := EmbedRows(embed, id, rest, EMBED_BATCH_SIZE).value;
      assert rows == Paired(id, batch, answer.vectors, answer.model) + later;
      forall k | 0 <= k < |chunks| ensures Holds(embed, id, chunks, rows, k) {
        if k < 64 {
          FirstBatchHolds(embed, id, chunks, rows, k);
        } else {
          assert rows[64..] == later && rest == chunks[64..];
          LaterBatchHolds(embed, id, chunks, rows, k);
        }
      }
    }
  }

  /** The document is there as it was given, and its rows hold its chunks. */
  ghost predicate StoredAs(services: Services, index: Index, after: Index, spec: Spec, now: int) {
    && spec.source in after.documents
    && var d, known := after.documents[spec.source], spec.source in index.documents;
       var rows, chunks := RowsOf(after.rows, d.id), Chunking.Chunked(spec.body, 1200, 150).value;
       && d.title == spec.title && d.category == spec.category && d.body == spec.body && d.account == spec.account
       && d.digest == services.hash(spec.body) && d.ingestedAt == now
       && (known ==> d.id == index.documents[spec.source].id)
       && (!known ==> forall row :: row in index.rows ==> row.documentId != d.id)
       && |rows| == |chunks|
       && (forall k :: 0 <= k < |chunks| ==> Holds(services.embed, d.id, chunks, rows, k))
  }

  /** Every document but this one is there exactly if it was, and as it was, with the rows it had. */
  ghost predicate OthersKept(index: Index, after: Index, source: Source) {
    forall s :: s != source ==>
      && (s in after.documents <==> s in index.documents)
      && (s in index.documents ==>
            && after.documents[s] == index.documents[s]
            && RowsOf(after.rows, after.documents[s].id) == RowsOf(index.rows, index.documents[s].id))
  }

  /**
   What one ingestion leaves in the corpus: an unchanged body nothing new; otherwise the document as it was given,
   digest and instant included, under its former identifier or one nothing had before, with one row per chunk that
   holds the exact span of the body and the vector the provider gave for it, and every other document untouched.
   */
  lemma WhatIsStored(services: Services, index: Index, spec: Spec, now: int)
    requires FreshIds(index) && Ingested(services, index, spec, now).Ok?
    ensures var known := spec.source in index.documents;
            var after := Ingested(services, index, spec, now).value.0;
            var written := Ingested(services, index, spec, now).value.1;
            if known && index.documents[spec.source].digest == services.hash(spec.body)
            then after == index && written == 0
            else StoredAs(services, index, after, spec, now) && OthersKept(index, after, spec.source)
                 && written == |Chunking.Chunked(spec.body, 1200, 150).value|
  {
    hide EmbedRows, RowsOf, Without, Holds, Chunking.Chunked;
    if !Unchanged(services, index, spec) {
      var after := Ingested(services, index, spec, now).value.0;
      IngestedRows(services, index, spec, now, after.documents[spec.source].id);
      EmbeddedRowsHold(services.embed, IdFor(index, spec), ChunksOf(spec.body));
      forall s | s != spec.source && s in index.documents
        ensures RowsOf(after.rows, after.documents[s].id) == RowsOf(index.rows, index.documents[s].id)
      {
        OtherIds(index, spec, s);
        IngestedRows(services, index, spec, now, index.documents[s].id);
      }
    }
  }

  /** The rows of an ingested document read off its body: consecutive indices, exact spans. */
  lemma RowsReadTheBody(services: Services, index: Index, spec: Spec, now: int, k: nat)
    requires FreshIds(index) && Ingested(services, index, spec, now).Ok? && !Unchanged(services, index, spec)
    requires var after := Ingested(services, index, spec, now).value.0;
             k < |RowsOf(after.rows, after.documents[spec.source].id)|
    ensures var after := Ingested(services, index, spec, now).value.0;
            var row := RowsOf(after.rows, after.documents[spec.source].id)[k];
            row.index == k && row.start < row.end <= |spec.body| && row.content == spec.body[row.start..row.end]
  {
    hide EmbedRows, RowsOf, Without, Chunking.Chunked, BatchOf, Texts, Ingested, FreshIds, OthersKept;
    WhatIsStored(services, index, spec, now);
    Chunking.ChunksAreExact(spec.body, 1200, 150);
    var after, chunks := Ingested(services, index, spec, now).value.0, Chunking.Chunked(spec.body, 1200, 150).value;
    var d := after.documents[spec.source];
    assert Holds(services.embed, d.id, chunks, RowsOf(after.rows, d.id), k);
    assert chunks[k].index == k && Chunking.ExactSpan(spec.body, 1200, chunks[k]);
  }

  /** What a run's counters add up to: each document once, as updated when it had chunks written, else as unchanged. */
  lemma {:induction false} CountersAddUp(services: Services, index: Index, specs: seq<Spec>, now: int, n: nat)
    requires n <= |specs| && IngestedMany(services, index, specs, now, n).Ok?
    ensures var c := IngestedMany(services, index, specs, now, n).value.1;
            && c.processed == n && c.updated + c.leftAlone == n && c.updated <= c.chunksWritten
    ensures n > 0 ==>
              && IngestedMany(services, index, specs, now, n - 1).Ok?
              && var (before, b) := IngestedMany(services, index, specs, now, n - 1).value;
                 var c := IngestedMany(services, index, specs, now, n).value.1;
                 && Ingested(services, before, specs[n - 1], now).Ok?
                 && c.chunksWritten == b.chunksWritten + Ingested(services, before, specs[n - 1], now).value.1
                 && (c.leftAlone == b.leftAlone + 1 <==> Ingested(services, before, specs[n - 1], now).value.1 == 0)
  {
    hide Ingested;
    if n > 0 { CountersAddUp(services, index, specs, now, n - 1); }
  }

  /** An ingestion fails exactly when the provider answers some batch of its chunks with another number of vectors. */
  lemma FailsIff(services: Services, index: Index, spec: Spec, now: int)
    ensures Ingested(services, index, spec, now).Err? <==>
            && !(spec.source in index.documents && index.documents[spec.source].digest == services.hash(spec.body))
            && exists k: nat :: k < |ChunksOf(spec.body)| && Misaligned(services.embed, ChunksOf(spec.body), k)
  {
    hide EmbedRows, ChunksOf, Misaligned, Without;
    MisalignedIff(services.embed, IdFor(index, spec), ChunksOf(spec.body));
  }

  ghost predicate Misaligned(embed: seq<string> -> Embedded, chunks: seq<Chunking.Chunk>, k: nat)
    requires k < |chunks|
  {
    |embed(Texts(BatchOf(chunks, k))).vectors| != |BatchOf(chunks, k)|
  }

  lemma {:induction false} MisalignedIff(embed: seq<string> -> Embedded, id: nat, chunks: seq<Chunking.Chunk>)
    ensures EmbedRows(embed, id, chunks, EMBED_BATCH_SIZE).None?
            <==> exists k: nat :: k < |chunks| && Misaligned(embed, chunks, k)
    decreases |chunks|
  {
    hide Texts, Paired;
    if chunks != [] {
      var size := Min(64, |chunks|);
      var rest := chunks[size..];
      MisalignedIff(embed, id, rest);
      assert BatchOf(chunks, 0) == chunks[..size];
      forall k: nat | k < |chunks|
        ensures k < 64 ==> BatchOf(chunks, k) == chunks[..size]
        ensures k >= 64 ==> k - 64 < |rest| && BatchOf(chunks, k) == BatchOf(rest, k - 64)
      {
        if k >= 64 { SameBatch(chunks, k); }
      }
      if j: nat :| j < |rest| && Misaligned(embed, rest, j) {
        assert BatchOf(chunks, j + 64) == BatchOf(rest, j);
        assert Misaligned(embed, chunks, j + 64);
      }
      if |embed(Texts(chunks[..size])).vectors| != size { assert Misaligned(embed, chunks, 0); }
      if k: nat :| k < |chunks| && Misaligned(embed, chunks, k) {
        if k >= 64 { assert Misaligned(embed, rest, k - 64); }
      }
    }
  }

  lemma SameBatch(chunks: seq<Chunking.Chunk>, k: nat)
    requires 64 <= k < |chunks|
    ensures BatchOf(chunks[64..], k - 64) == BatchOf(chunks, k)
  {
    assert (k - 64) % 64 == k % 64;
  }

  // ---- Batching -------------------------------------------------------------------------------------------

  /** The provider embeds each text on its own, with one model. */
  ghost predicate Pointwise(embed: seq<string> -> Embedded, one: string -> Vector, model: string) {
    forall texts :: embed(texts) == Embedded(seq(|texts|, i requires 0 <= i < |texts| => one(texts[i])), model)
  }

  /** The rows of a list of chunks, each embedded on its own. */
  function RowsOneByOne(id: nat, chunks: seq<Chunking.Chunk>, one: string -> Vector, model: string): seq<Row> {
    seq(|chunks|, i requires 0 <= i < |chunks| => RowFor(id, chunks[i], one(chunks[i].text), model))
  }

  /** The stored rows do not depend on the batch size: each chunk is paired, in order, with its own embedding. */
  lemma {:induction false} BatchSizeDoesNotMatter(embed: seq<string> -> Embedded, one: string -> Vector, model: string,
                                                  id: nat, chunks: seq<Chunking.Chunk>, batchSize: nat)
    requires batchSize >= 1 && Pointwise(embed, one, model)
    ensures EmbedRows(embed, id, chunks, batchSize) == Some(RowsOneByOne(id, chunks, one, model))
    decreases |chunks|
  {
    hide Pointwise, RowFor;
    if chunks == [] {
      assert RowsOneByOne(id, chunks, one, model) == [];
    } else {
      var size := Min(batchSize, |chunks|);
      var batch, left := chunks[..size], chunks[size..];
      BatchSizeDoesNotMatter(embed, one, model, id, left, batchSize);
      OneBatch(embed, one, model, id, batch);
      SplitRows(id, chunks, size, one, model);
    }
  }

  lemma OneBatch(embed: seq<string> -> Embedded, one: string -> Vector, model: string, id: nat,
                 batch: seq<Chunking.Chunk>)
    requires Pointwise(embed, one, model)
    ensures var answer := embed(Texts(batch));
            && |answer.vectors| == |batch|
            && Paired(id, batch, answer.vectors, answer.model) == RowsOneByOne(id, batch, one, model)
  {
  }

  lemma SplitRows(id: nat, chunks: seq<Chunking.Chunk>, size: nat, one: string -> Vector, model: string)
    requires size <= |chunks|
    ensures RowsOneByOne(id, chunks, one, model)
            == RowsOneByOne(id, chunks[..size], one, model) + RowsOneByOne(id, chunks[size..], one, model)
  {
  }
}
