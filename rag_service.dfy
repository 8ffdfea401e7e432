/**
 * The RAG-mode knowledge store: one "Property Listing" document per CSV row,
 * their embeddings in a flat L2 index, and retrieval of the documents the
 * index returns for a query.
 *
 * The embedding service is the function `embed`, applied to each text of a
 * request in order. The nearest-neighbour search is its answer, `hits`: the
 * row indices FAISS returns, `-1` padding the list when the index holds fewer
 * than `top_k` vectors.
 */
module RagService {
  import opened Wrappers
  import opened Text
  import opened Tabular

  type Vector = seq<real>

  /** A filled `faiss.IndexFlatL2`: its dimension and its vectors in insertion order. */
  datatype FlatIndex = FlatIndex(dimension: nat, vectors: seq<Vector>)

  /**
   * What `retrieve_context` produces: a string, the `IndexError` the
   * document lookup raises, or the exception the query-embedding call raises
   * (neither is caught there).
   */
  datatype Retrieved = Context(text: string) | IndexError | EmbeddingFailed

  const DocumentLabel: string := "Property Listing -> "
  const BatchSize: nat := 100
  const DefaultTopK: nat := 15
  const NotInitializedMessage: string := "Knowledge base is not yet initialized."
  const ContextSeparator: string := "\n- "

  function CellPart(column: string, value: string): string {
    column + ": " + value
  }

  /** `doc_parts` of one row: `col: val` for the cells whose text is non-empty, in column order. */
  function RowParts(columns: seq<string>, row: seq<string>): (parts: seq<string>)
    requires |row| == |columns|
    ensures forall p :: p in parts ==> exists j :: 0 <= j < |row| && row[j] != "" && p == CellPart(columns[j], row[j])
    ensures forall j :: 0 <= j < |row| && row[j] != "" ==> CellPart(columns[j], row[j]) in parts
    decreases |row|
  {
    if |row| == 0 then []
    else
      var n := |row| - 1;
      var earlier := RowParts(columns[..n], row[..n]);
      assert forall j :: 0 <= j < n ==> columns[..n][j] == columns[j] && row[..n][j] == row[j];
      earlier + (if row[n] != "" then [CellPart(columns[n], row[n])] else [])
  }

  /** The document of one row. */
  function RenderRow(columns: seq<string>, row: seq<string>): string
    requires |row| == |columns|
  {
    DocumentLabel + Join(", ", RowParts(columns, row)) + "."
  }

  /** One document per row, in row order. */
  function Documents(f: Frame): (docs: seq<string>)
    requires Rectangular(f)
    ensures |docs| == |f.rows|
    ensures forall i :: 0 <= i < |f.rows| ==> docs[i] == RenderRow(f.columns, f.rows[i])
  {
    seq(|f.rows|, i requires 0 <= i < |f.rows| && Rectangular(f) => RenderRow(f.columns, f.rows[i]))
  }

  /** A non-empty cell of a row is mentioned, as `col: val`, in that row's document. */
  lemma RenderedRowMentionsCell(columns: seq<string>, row: seq<string>, j: nat)
    requires |row| == |columns| && j < |row| && row[j] != ""
    ensures IsSubstring(CellPart(columns[j], row[j]), RenderRow(columns, row))
  {
    var parts := RowParts(columns, row);
    var k :| 0 <= k < |parts| && parts[k] == CellPart(columns[j], row[j]);
    PartInJoin(", ", parts, k);
    SubstringWiden(parts[k], DocumentLabel, Join(", ", parts), ".");
  }

  /** The per-row loop of `load_and_index_csv`: builds `doc_parts` cell by cell, then the document. */
  method RenderDocuments(f: Frame) returns (docs: seq<string>)
    requires Rectangular(f)
    ensures docs == Documents(f)
  {
    docs := [];
    var r := 0;
    while r < |f.rows|
      invariant 0 <= r <= |f.rows|
      invariant docs == Documents(f)[..r]
    {
      var row := f.rows[r];
      var docParts := [];
      var j := 0;
      while j < |f.columns|
        invariant 0 <= j <= |f.columns|
        invariant docParts == RowParts(f.columns[..j], row[..j])
      {
        assert f.columns[..j + 1][..j] == f.columns[..j];
        assert row[..j + 1][..j] == row[..j];
        if row[j] != "" {
          docParts := docParts + [CellPart(f.columns[j], row[j])];
        }
        j := j + 1;
      }
      assert f.columns[..j] == f.columns && row[..j] == row;
      docs := docs + [DocumentLabel + Join(", ", docParts) + "."];
      r := r + 1;
    }
  }

  /** One embedding per text, in the order of the texts. */
  function EmbedAll(embed: string -> Vector, texts: seq<string>): (vs: seq<Vector>)
    ensures |vs| == |texts|
    ensures forall i :: 0 <= i < |texts| ==> vs[i] == embed(texts[i])
  {
    seq(|texts|, i requires 0 <= i < |texts| => embed(texts[i]))
  }

  /**
   * The batch loop: one embeddings request per slice `documents[i:i+100]`.
   * Batching changes nothing: the result is one embedding per document, in
   * document order.
   */
  method EmbedInBatches(documents: seq<string>, embed: string -> Vector) returns (embeddings: seq<Vector>)
    ensures embeddings == EmbedAll(embed, documents)
  {
    embeddings := [];
    var i := 0;
    while i < |documents|
      invariant 0 <= i
      invariant embeddings == EmbedAll(embed, documents[..if i < |documents| then i else |documents|])
      decreases |documents| - i
    {
      var end := if i + BatchSize < |documents| then i + BatchSize else |documents|;
      var batchDocs := documents[i..end];
      var response := EmbedAll(embed, batchDocs);
      assert documents[..end] == documents[..i] + batchDocs;
      embeddings := embeddings + response;
      i := i + BatchSize;
    }
    assert documents[..|documents|] == documents;
  }

  /** `IndexFlatL2(embeddings.shape[1])` after `add(embeddings)`. */
  function BuildIndex(embeddings: seq<Vector>): (index: FlatIndex)
    requires |embeddings| > 0
  {
    FlatIndex(|embeddings[0]|, embeddings)
  }

  /** Python's `xs[i]` on a list of length `n`: the position read, or `None` where it raises `IndexError`. */
  function PyIndex(n: nat, i: int): (p: Option<nat>)
    ensures p.None? <==> i + n < 0 || n <= i
    ensures p.Some? ==> p.value < n && (p.value == i || p.value == n + i)
  {
    if 0 <= i < n then Some(i)
    else if 0 <= i + n && i < 0 then Some(n + i)
    else None
  }

  /** `[documents[i] for i in hits]`, or `None` when one of the lookups raises. */
  function Lookup(documents: seq<string>, hits: seq<int>): (r: Option<seq<string>>)
    ensures r.None? <==> exists k :: 0 <= k < |hits| && PyIndex(|documents|, hits[k]).None?
    ensures r.Some? ==> |r.value| == |hits|
    ensures r.Some? ==> forall k :: 0 <= k < |hits| ==>
      PyIndex(|documents|, hits[k]).Some? && r.value[k] == documents[PyIndex(|documents|, hits[k]).value]
    decreases |hits|
  {
    if |hits| == 0 then Some([])
    else
      match PyIndex(|documents|, hits[0])
      case None => None
      case Some(p) =>
        match Lookup(documents, hits[1..])
        case None =>
          assert forall k :: 1 <= k < |hits| ==> hits[1..][k - 1] == hits[k];
          None
        case Some(rest) => Some([documents[p]] + rest)
  }

  ghost predicate NoDuplicates(s: seq<string>) {
    forall i, j :: 0 <= i < j < |s| ==> s[i] != s[j]
  }

  /** First occurrences only, in order: one enumeration of `set(s)`. */
  function Dedup(s: seq<string>): (r: seq<string>)
    ensures NoDuplicates(r)
    ensures forall d :: d in r <==> d in s
    decreases |s|
  {
    if |s| == 0 then []
    else
      var r := Dedup(s[..|s| - 1]);
      assert forall d :: d in s <==> d in s[..|s| - 1] || d == s[|s| - 1];
      if s[|s| - 1] in r then r else r + [s[|s| - 1]]
  }

  /**
   * `ContextSeparator.join(set(items))`: the text joins every distinct item
   * exactly once, in an order Python leaves unspecified.
   */
  ghost predicate JoinOfSet(text: string, items: seq<string>) {
    exists ds :: NoDuplicates(ds) && (forall d :: d in ds <==> d in items) && text == Join(ContextSeparator, ds)
  }

  class RAGService {
    var index: Option<FlatIndex>
    var documents: seq<string>
    var isInitialized: bool

    /**
     * What readers rely on once the store is initialised: an index exists and
     * position `i` of the index is `documents[i]`.
     */
    ghost predicate Valid()
      reads this
    {
      isInitialized ==> index.Some? && |documents| > 0 && |index.value.vectors| == |documents|
    }

    constructor ()
      ensures index.None? && documents == [] && !isInitialized
      ensures Valid()
    {
      index := None;
      documents := [];
      isInitialized := false;
    }

    /**
     * `load_and_index_csv`, as written. `read` is what `pd.read_csv` yields
     * (`None` when it raises). The document list is replaced before the
     * emptiness check, so an empty file leaves the old index and flag beside
     * an empty document list.
     */
    method LoadAndIndexCsv(read: Option<Frame>, embed: string -> Vector)
      requires read.Some? ==> Rectangular(read.value)
      modifies this
      ensures read.None? ==> documents == old(documents) && index == old(index) && isInitialized == old(isInitialized)
      ensures read.Some? ==> documents == Documents(read.value)
      ensures read.Some? && read.value.rows == [] ==> index == old(index) && isInitialized == old(isInitialized)
      ensures read.Some? && read.value.rows != [] ==>
        isInitialized && index == Some(BuildIndex(EmbedAll(embed, documents))) && Valid()
      ensures read.Some? && read.value.rows == [] && old(isInitialized) ==> !Valid()
    {
      if read.None? {
        return;
      }
      var df := read.value;
      documents := [];
      documents := RenderDocuments(df);
      if |documents| == 0 {
        return;
      }
      var embeddings := EmbedInBatches(documents, embed);
      index := Some(BuildIndex(embeddings));
      isInitialized := true;
    }

    /**
     * `load_and_index_csv` with the documents built aside and published
     * together with their index: a file that cannot be read or yields no
     * rows leaves the previous generation in place.
     */
    method LoadAndIndexCsvAtomic(read: Option<Frame>, embed: string -> Vector)
      requires Valid()
      requires read.Some? ==> Rectangular(read.value)
      modifies this
      ensures Valid()
      ensures read.None? || read.value.rows == [] ==>
        documents == old(documents) && index == old(index) && isInitialized == old(isInitialized)
      ensures read.Some? && read.value.rows != [] ==>
        documents == Documents(read.value) && isInitialized && index == Some(BuildIndex(EmbedAll(embed, documents)))
    {
      if read.None? {
        return;
      }
      var docs := RenderDocuments(read.value);
      if |docs| == 0 {
        return;
      }
      var embeddings := EmbedInBatches(docs, embed);
      documents, index, isInitialized := docs, Some(BuildIndex(embeddings)), true;
    }

    /**
     * `retrieve_context` for the search answer `search`: `None` when
     * embedding the query raised, otherwise the FAISS hits. Before
     * initialisation the fixed message is returned and nothing is embedded;
     * otherwise the distinct documents the hits name, joined.
     */
    function RetrieveContext(search: Option<seq<int>>): (r: Retrieved)
      reads this
      ensures !isInitialized ==> r == Context(NotInitializedMessage)
      ensures isInitialized ==> (r.EmbeddingFailed? <==> search.None?)
      ensures isInitialized && search.Some? ==>
        (r.IndexError? <==> exists k :: 0 <= k < |search.value| && PyIndex(|documents|, search.value[k]).None?)
      ensures isInitialized && r.Context? ==>
        search.Some? && JoinOfSet(r.text, Lookup(documents, search.value).value)
    {
      if !isInitialized then Context(NotInitializedMessage)
      else if search.None? then EmbeddingFailed
      else
        match Lookup(documents, search.value)
        case None => IndexError
        case Some(selected) =>
          var unique := Dedup(selected);
          assert NoDuplicates(unique) && (forall d :: d in unique <==> d in selected);
          Context(Join(ContextSeparator, unique))
    }
  }

  /**
   * With a consistent store, any answer FAISS can give (indices below the
   * index size, `-1` padding) is looked up without error.
   */
  lemma SearchOfValidStoreNeverRaises(svc: RAGService, hits: seq<int>)
    requires svc.Valid() && svc.isInitialized
    requires forall k :: 0 <= k < |hits| ==> -1 <= hits[k] < |svc.index.value.vectors|
    ensures svc.RetrieveContext(Some(hits)).Context?
  {
  }

  /** A `-1` padding entry reads `documents[-1]`: the last document joins the context. */
  lemma PaddingSelectsLastDocument(documents: seq<string>, hits: seq<int>, k: nat)
    requires |documents| > 0 && k < |hits| && hits[k] == -1
    requires Lookup(documents, hits).Some?
    ensures documents[|documents| - 1] in Lookup(documents, hits).value
  {
    assert Lookup(documents, hits).value[k] == documents[|documents| - 1];
  }

  /** Hits that all name the same text yield that text alone: duplicates collapse. */
  lemma {:induction false} IdenticalDocumentsCollapse(s: seq<string>)
    requires |s| > 0
    requires forall k :: 0 <= k < |s| ==> s[k] == s[0]
    ensures Dedup(s) == [s[0]]
    ensures Join(ContextSeparator, Dedup(s)) == s[0]
    decreases |s|
  {
    if |s| > 1 {
      IdenticalDocumentsCollapse(s[..|s| - 1]);
    }
  }

  /**
   * The empty re-upload, as written: one row loaded, then a file with a
   * header and no rows. The store stays initialised with no documents, and a
   * search answer FAISS can give for the one-vector index (`[0, -1, ..]`)
   * makes retrieval raise.
   */
  method EmptyReuploadRetrieval(embed: string -> Vector) returns (r: Retrieved)
    ensures r == IndexError
  {
    var svc := new RAGService();
    svc.LoadAndIndexCsv(Some(Frame(["Unit"], [["2B"]])), embed);
    svc.LoadAndIndexCsv(Some(Frame(["Unit"], [])), embed);
    var hits := [0] + seq(DefaultTopK - 1, _ => -1);
    assert PyIndex(|svc.documents|, hits[0]).None?;
    r := svc.RetrieveContext(Some(hits));
  }

  /** The same sequence against the atomic load: the first file's document is still served. */
  method EmptyReuploadRetrievalAtomic(embed: string -> Vector) returns (r: Retrieved)
    ensures r == Context(RenderRow(["Unit"], ["2B"]))
  {
    var svc := new RAGService();
    svc.LoadAndIndexCsvAtomic(Some(Frame(["Unit"], [["2B"]])), embed);
    svc.LoadAndIndexCsvAtomic(Some(Frame(["Unit"], [])), embed);
    var hits := [0] + seq(DefaultTopK - 1, _ => -1);
    var doc := RenderRow(["Unit"], ["2B"]);
    assert svc.documents == [doc];
    var selected := Lookup(svc.documents, hits).value;
    assert forall k :: 0 <= k < |selected| ==> selected[k] == doc;
    IdenticalDocumentsCollapse(selected);
    r := svc.RetrieveContext(Some(hits));
  }
}
