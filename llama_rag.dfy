/**
 * The llama.cpp RAG embedding database: a FAISS vector store plus an index
 * list of the files added to it, keyed by the MD5 of their contents. Adding a
 * file that is already indexed is a no-op; otherwise the file's extension
 * picks a document loader, the loaded text is split into documents, each
 * document is stored under a fresh UUID, and the index list is appended and
 * saved. Queries return the relevant documents' contents and sources.
 *
 * FAISS, the embedding model, the loaders, the text splitter, MD5 and JSON
 * persistence are foreign: the MD5 digest and the split documents are inputs,
 * the store is modelled as its (id, document) entries, the UUID generator as a
 * stream `uuid(0), uuid(1), ...`, and the files written as two fields holding
 * the last index list and store saved.
 */
module LlamaRag {
  import opened Wrappers
  import Strings

  /** INDEX_NUM: how many documents a query retrieves at most. */
  const IndexNum: nat := 2
  /** The relevance score a retrieved document must reach. */
  const ScoreThreshold: real := 0.4

  /** A split document: its text and the path of the file it came from (metadata["source"]). */
  datatype Document = Document(content: string, source: string)

  /** An index_list entry `{"name": ..., "md5": ..., "doc_ids": ...}`. */
  datatype IndexEntry = IndexEntry(name: string, md5: string, docIds: seq<string>)

  /** The vector store's documents with their ids, in insertion order. */
  datatype Store = Store(entries: seq<(string, Document)>)

  // ---------------------------------------------------------------------------
  // Paths (os.path.basename and os.path.splitext, with Windows separators).

  predicate IsSep(c: char) {
    c == '/' || c == '\\'
  }

  /** The position of the last separator in p, or -1. */
  function LastSep(p: string): (k: int)
    ensures -1 <= k < |p|
    ensures k >= 0 ==> IsSep(p[k])
    ensures forall j :: k < j < |p| ==> !IsSep(p[j])
  {
    if p == [] then -1
    else if IsSep(p[|p| - 1]) then |p| - 1
    else LastSep(p[..|p| - 1])
  }

  /** os.path.basename: the longest separator-free suffix of the path. */
  function Basename(p: string): (b: string)
    ensures |b| <= |p| && p[|p| - |b|..] == b
    ensures forall j :: 0 <= j < |b| ==> !IsSep(b[j])
    ensures |b| < |p| ==> IsSep(p[|p| - |b| - 1])
  {
    p[LastSep(p) + 1..]
  }

  /** The position of the last '.' in p, or -1. */
  function LastDot(p: string): (k: int)
    ensures -1 <= k < |p|
    ensures k >= 0 ==> p[k] == '.'
    ensures forall j :: k < j < |p| ==> p[j] != '.'
  {
    if p == [] then -1
    else if p[|p| - 1] == '.' then |p| - 1
    else LastDot(p[..|p| - 1])
  }

  /**
   * os.path.splitext of a base name: the extension runs from the last dot,
   * unless only dots precede that dot (a leading-dot name has no extension).
   */
  function SplitExt(name: string): (r: (string, string))
    ensures r.0 + r.1 == name
    ensures r.1 != [] ==> r.1[0] == '.' && forall j :: 1 <= j < |r.1| ==> r.1[j] != '.'
    ensures r.1 != [] ==> exists j :: 0 <= j < |r.0| && r.0[j] != '.'
    ensures r.1 == [] ==> forall k, j :: 0 <= j < k < |name| && name[k] == '.' ==> name[j] == '.'
  {
    var d := LastDot(name);
    if d >= 0 && exists j :: 0 <= j < d && name[j] != '.' then
      assert name[..d] + name[d..] == name;
      (name[..d], name[d..])
    else (name, [])
  }

  /** `os.path.splitext(os.path.basename(file))[1].lower()`. */
  function FileExtension(file: string): string {
    Strings.ToLower(SplitExt(Basename(file)).1)
  }

  // ---------------------------------------------------------------------------
  // Loader dispatch (__analyze_file_to_db).

  /** The document loaders, one per supported extension. */
  datatype Loader = TextLoader | PyPdfLoader | WordDocumentLoader | Docx2txtLoader | MarkdownLoader

  /** The (lower-case) extension each loader is chosen for. */
  function LoaderExtension(l: Loader): string {
    match l
    case TextLoader => TxtExtension
    case PyPdfLoader => PdfExtension
    case WordDocumentLoader => DocExtension
    case Docx2txtLoader => DocxExtension
    case MarkdownLoader => MdExtension
  }

  const TxtExtension: string := ".txt"
  const PdfExtension: string := ".pdf"
  const DocExtension: string := ".doc"
  const DocxExtension: string := ".docx"
  const MdExtension: string := ".md"

  /** The if/elif chain on the extension. */
  function LoaderFor(ext: string): (r: Option<Loader>)
    ensures r.Some? ==> LoaderExtension(r.value) == ext
    ensures r.None? ==> forall l: Loader :: LoaderExtension(l) != ext
  {
    if ext == TxtExtension then Some(TextLoader)
    else if ext == PdfExtension then Some(PyPdfLoader)
    else if ext == DocExtension then Some(WordDocumentLoader)
    else if ext == DocxExtension then Some(Docx2txtLoader)
    else if ext == MdExtension then Some(MarkdownLoader)
    else None
  }

  /**
   * The extension test ignores case: a raw extension selects loader l exactly
   * when it spells l's extension letter by letter up to ASCII case.
   */
  lemma DispatchIgnoresCase(e: string, l: Loader)
    ensures LoaderFor(Strings.ToLower(e)) == Some(l) <==>
      |e| == |LoaderExtension(l)| && forall i :: 0 <= i < |e| ==> Strings.LowerChar(e[i]) == LoaderExtension(l)[i]
  {
    var lower := Strings.ToLower(e);
    if |e| == |LoaderExtension(l)| && forall i :: 0 <= i < |e| ==> Strings.LowerChar(e[i]) == LoaderExtension(l)[i] {
      assert lower == LoaderExtension(l);
      LoaderForExtension(l);
    }
  }

  /** Upper- and mixed-case extensions reach the same loaders as their lower-case forms. */
  lemma MixedCaseExtensionsDispatch()
    ensures LoaderFor(Strings.ToLower(".PDF")) == Some(PyPdfLoader)
    ensures LoaderFor(Strings.ToLower(".DocX")) == Some(Docx2txtLoader)
  {
    DispatchIgnoresCase(".PDF", PyPdfLoader);
    DispatchIgnoresCase(".DocX", Docx2txtLoader);
  }

  /** A file named in capitals is analysed with the PDF loader. */
  lemma UpperCaseFileUsesPdfLoader()
    ensures FileExtension("docs\\A.PDF") == PdfExtension
    ensures LoaderFor(FileExtension("docs\\A.PDF")) == Some(PyPdfLoader)
  {
    var path := "docs\\A.PDF";
    assert path[4] == '\\' && LastSep(path) == 4;
    var base := Basename(path);
    assert base == "A.PDF";
    assert base[1] == '.' && base[0] != '.';
    assert LastDot(base) == 1;
    assert SplitExt(base).1 == ".PDF";
    MixedCaseExtensionsDispatch();
    DispatchIgnoresCase(".PDF", PyPdfLoader);
    LoaderForExtension(PyPdfLoader);
  }

  /** A loader is chosen exactly for the five supported extensions. */
  lemma LoaderForIff(ext: string)
    ensures LoaderFor(ext).Some? <==> ext in [TxtExtension, PdfExtension, DocExtension, DocxExtension, MdExtension]
  {
    if ext in [TxtExtension, PdfExtension, DocExtension, DocxExtension, MdExtension] {
      var l := if ext == TxtExtension then TextLoader else if ext == PdfExtension then PyPdfLoader
               else if ext == DocExtension then WordDocumentLoader else if ext == DocxExtension then Docx2txtLoader
               else MarkdownLoader;
      assert LoaderExtension(l) == ext;
    }
  }

  const UnsupportedExtensionPrefix: string := "Unsupported file extension "
  const CannotAnalyzePrefix: string := "Cannot analyze "

  /**
   * What analysing a file yields before anything is stored: the split
   * documents, or the message of the exception raised. `split(l)` is what
   * loading the file with loader l and splitting it produces (or the loader's
   * exception).
   */
  function Analyze(file: string, split: Loader -> Result<seq<Document>, string>): (r: Result<seq<Document>, string>)
    ensures r.Success? ==> r.value != []
  {
    var ext := FileExtension(file);
    match LoaderFor(ext)
    case None => Failure(UnsupportedExtensionPrefix + ext)
    case Some(l) =>
      match split(l)
      case Failure(e) => Failure(e)
      case Success(docs) => if docs == [] then Failure(CannotAnalyzePrefix + Basename(file)) else Success(docs)
  }

  /** Each loader is chosen for its own extension. */
  lemma LoaderForExtension(l: Loader)
    ensures LoaderFor(LoaderExtension(l)) == Some(l)
  {
    match l
    case TextLoader =>
    case PyPdfLoader =>
    case WordDocumentLoader =>
    case Docx2txtLoader =>
    case MarkdownLoader =>
  }

  /** An unsupported extension raises with that extension. */
  lemma AnalyzeUnsupported(file: string, split: Loader -> Result<seq<Document>, string>)
    requires forall l: Loader :: LoaderExtension(l) != FileExtension(file)
    ensures Analyze(file, split) == Failure(UnsupportedExtensionPrefix + FileExtension(file))
  {
  }

  /**
   * A supported extension uses its loader: the loader's exception propagates,
   * an empty split raises "Cannot analyze" with the base name, and otherwise
   * the split documents are the result.
   */
  lemma AnalyzeSupported(file: string, split: Loader -> Result<seq<Document>, string>, l: Loader)
    requires LoaderExtension(l) == FileExtension(file)
    ensures split(l).Failure? ==> Analyze(file, split) == split(l)
    ensures split(l) == Success([]) ==> Analyze(file, split) == Failure(CannotAnalyzePrefix + Basename(file))
    ensures split(l).Success? && split(l).value != [] ==> Analyze(file, split) == split(l)
  {
    LoaderForExtension(l);
  }

  // ---------------------------------------------------------------------------
  // Document ids.

  /** `[str(uuid4()) for _ in range(n)]`: the next n outputs of the UUID stream. */
  function Uuids(uuid: nat -> string, start: nat, n: nat): (ids: seq<string>)
    ensures |ids| == n
    ensures forall j :: 0 <= j < n ==> ids[j] == uuid(start + j)
  {
    seq(n, j requires 0 <= j < n => uuid(start + j))
  }

  ghost predicate Injective(uuid: nat -> string) {
    forall a: nat, b: nat :: uuid(a) == uuid(b) ==> a == b
  }

  /** With a collision-free generator the new ids are pairwise distinct and differ from every earlier one. */
  lemma UuidsFresh(uuid: nat -> string, start: nat, n: nat)
    requires Injective(uuid)
    ensures var ids := Uuids(uuid, start, n);
      && (forall i, j :: 0 <= i < j < n ==> ids[i] != ids[j])
      && (forall k: nat, j :: k < start && 0 <= j < n ==> uuid(k) != ids[j])
  {
    var ids := Uuids(uuid, start, n);
    forall i, j | 0 <= i < j < n
      ensures ids[i] != ids[j]
    {
      assert ids[i] == uuid(start + i) && ids[j] == uuid(start + j);
    }
    forall k: nat, j | k < start && 0 <= j < n
      ensures uuid(k) != ids[j]
    {
      assert ids[j] == uuid(start + j);
    }
  }

  /** The store entries for documents stored under ids. */
  function Zip(ids: seq<string>, docs: seq<Document>): (r: seq<(string, Document)>)
    requires |ids| == |docs|
    ensures |r| == |docs|
    ensures forall j :: 0 <= j < |docs| ==> r[j] == (ids[j], docs[j])
  {
    seq(|docs|, j requires 0 <= j < |docs| => (ids[j], docs[j]))
  }

  /** db.add_documents on the store, created empty first when there is none. */
  function WithDocuments(db: Option<Store>, ids: seq<string>, docs: seq<Document>): (s: Store)
    requires |ids| == |docs|
    ensures var before := if db.Some? then db.value.entries else [];
      s.entries == before + Zip(ids, docs)
  {
    var base := if db.Some? then db.value else Store([]);
    Store(base.entries + Zip(ids, docs))
  }

  // ---------------------------------------------------------------------------
  // Adding a file (add_index_file), as a specification.

  /** The database's state: the store, the index list, the UUIDs used, and the last index and store saved. */
  datatype DbState = DbState(
    db: Option<Store>,
    indexList: seq<IndexEntry>,
    uuidCount: nat,
    savedIndex: Option<seq<IndexEntry>>,
    savedDb: Option<Store>)

  /** Some index entry has this MD5. */
  predicate Indexed(list: seq<IndexEntry>, md5: string) {
    exists i :: 0 <= i < |list| && list[i].md5 == md5
  }

  /** No two index entries share an MD5. */
  predicate UniqueMd5s(list: seq<IndexEntry>) {
    forall i, j :: 0 <= i < j < |list| ==> list[i].md5 != list[j].md5
  }

  /** __add_documents and __save_index: store the documents under fresh ids, append the entry, save both. */
  function AfterAdd(s: DbState, uuid: nat -> string, name: string, md5: string, docs: seq<Document>): DbState {
    var ids := Uuids(uuid, s.uuidCount, |docs|);
    var store := WithDocuments(s.db, ids, docs);
    var list := s.indexList + [IndexEntry(name, md5, ids)];
    DbState(Some(store), list, s.uuidCount + |docs|, Some(list), Some(store))
  }

  /** add_index_file: the new state and the result, (1, md5), (0, md5) or the exception's message. */
  function AddSpec(s: DbState, uuid: nat -> string, file: string, md5: string,
                   split: Loader -> Result<seq<Document>, string>): (DbState, Result<(int, string), string>)
  {
    if Indexed(s.indexList, md5) then (s, Success((1, md5)))
    else
      var analysed := Analyze(file, split);
      if analysed.Failure? then (s, Failure(analysed.error))
      else (AfterAdd(s, uuid, Basename(file), md5, analysed.value), Success((0, md5)))
  }

  /** An already-indexed MD5 returns (1, md5) and changes nothing. */
  lemma AddDuplicateChangesNothing(s: DbState, uuid: nat -> string, file: string, md5: string,
                                   split: Loader -> Result<seq<Document>, string>)
    requires Indexed(s.indexList, md5)
    ensures AddSpec(s, uuid, file, md5, split) == (s, Success((1, md5)))
  {
  }

  /** A file that cannot be analysed raises before anything changes. */
  lemma AddFailureChangesNothing(s: DbState, uuid: nat -> string, file: string, md5: string,
                                 split: Loader -> Result<seq<Document>, string>)
    requires !Indexed(s.indexList, md5) && Analyze(file, split).Failure?
    ensures AddSpec(s, uuid, file, md5, split) == (s, Failure(Analyze(file, split).error))
  {
  }

  /**
   * A new file returns (0, md5) after appending exactly one entry: its base
   * name, its MD5 and one fresh id per split document; each document is stored
   * under its id, and the saved index is the new list.
   */
  lemma AddNewAppendsOneEntry(s: DbState, uuid: nat -> string, file: string, md5: string,
                              split: Loader -> Result<seq<Document>, string>)
    requires !Indexed(s.indexList, md5) && Analyze(file, split).Success?
    ensures var (t, r) := AddSpec(s, uuid, file, md5, split);
      && r == Success((0, md5))
      && t == AfterAdd(s, uuid, Basename(file), md5, Analyze(file, split).value)
  {
  }

  /**
   * Storing documents appends exactly one index entry, holding the base name,
   * the MD5 and one fresh id per document, and saves the new list.
   */
  lemma AfterAddIndex(s: DbState, uuid: nat -> string, name: string, md5: string, docs: seq<Document>)
    ensures var t := AfterAdd(s, uuid, name, md5, docs);
      && |t.indexList| == |s.indexList| + 1
      && t.indexList[..|s.indexList|] == s.indexList
      && t.indexList[|s.indexList|] == IndexEntry(name, md5, Uuids(uuid, s.uuidCount, |docs|))
      && |t.indexList[|s.indexList|].docIds| == |docs|
      && t.uuidCount == s.uuidCount + |docs|
      && t.savedIndex == Some(t.indexList)
  {
    var t := AfterAdd(s, uuid, name, md5, docs);
    assert t.indexList == s.indexList + [IndexEntry(name, md5, Uuids(uuid, s.uuidCount, |docs|))];
  }

  /** The documents are stored after the existing entries, each under its new id, and the new store is saved. */
  lemma AfterAddStore(s: DbState, uuid: nat -> string, name: string, md5: string, docs: seq<Document>)
    ensures var t := AfterAdd(s, uuid, name, md5, docs);
      var before := if s.db.Some? then s.db.value.entries else [];
      && t.db == Some(Store(before + Zip(Uuids(uuid, s.uuidCount, |docs|), docs)))
      && t.savedDb == t.db
  {
  }

  /** Adding the same content again, under any name, is reported as already indexed. */
  lemma AddTwiceIsDuplicate(s: DbState, uuid: nat -> string, file: string, file2: string, md5: string,
                            split: Loader -> Result<seq<Document>, string>,
                            split2: Loader -> Result<seq<Document>, string>)
    requires AddSpec(s, uuid, file, md5, split).1.Success?
    ensures var t := AddSpec(s, uuid, file, md5, split).0;
      AddSpec(t, uuid, file2, md5, split2) == (t, Success((1, md5)))
  {
    var t := AddSpec(s, uuid, file, md5, split).0;
    if !Indexed(s.indexList, md5) {
      assert t.indexList[|s.indexList|].md5 == md5;
    }
  }

  /** Adding keeps the index list free of duplicate MD5s. */
  lemma AddKeepsMd5sUnique(s: DbState, uuid: nat -> string, file: string, md5: string,
                           split: Loader -> Result<seq<Document>, string>)
    requires UniqueMd5s(s.indexList)
    ensures UniqueMd5s(AddSpec(s, uuid, file, md5, split).0.indexList)
  {
    var t := AddSpec(s, uuid, file, md5, split).0;
    if !Indexed(s.indexList, md5) && Analyze(file, split).Success? {
      forall i, j | 0 <= i < j < |t.indexList|
        ensures t.indexList[i].md5 != t.indexList[j].md5
      {
        if j == |s.indexList| {
          assert t.indexList[i] == s.indexList[i];
        } else {
          assert t.indexList[i] == s.indexList[i] && t.indexList[j] == s.indexList[j];
        }
      }
    }
  }

  /** The ids of the store's entries, in order (none when there is no store). */
  function StoreIds(db: Option<Store>): (ids: seq<string>)
    ensures db.None? ==> ids == []
    ensures db.Some? ==> |ids| == |db.value.entries| && forall j :: 0 <= j < |ids| ==> ids[j] == db.value.entries[j].0
  {
    if db.None? then [] else seq(|db.value.entries|, j requires 0 <= j < |db.value.entries| => db.value.entries[j].0)
  }

  /**
   * The id invariant: the store's ids are pairwise distinct, and no stream
   * output from uuidCount onwards is already one of them. It holds of a fresh
   * object over a loaded store only when the generator avoids the loaded ids,
   * which uuid4 does with overwhelming probability.
   */
  ghost predicate IdsFresh(s: DbState, uuid: nat -> string) {
    var ids := StoreIds(s.db);
    && Injective(uuid)
    && (forall i, j :: 0 <= i < j < |ids| ==> ids[i] != ids[j])
    && (forall k: nat :: s.uuidCount <= k ==> uuid(k) !in ids)
  }

  /** Storing documents extends the store's ids by the next stream outputs. */
  lemma AfterAddStoreIds(s: DbState, uuid: nat -> string, name: string, md5: string, docs: seq<Document>)
    ensures StoreIds(AfterAdd(s, uuid, name, md5, docs).db) == StoreIds(s.db) + Uuids(uuid, s.uuidCount, |docs|)
  {
    var news := Uuids(uuid, s.uuidCount, |docs|);
    var before := if s.db.Some? then s.db.value.entries else [];
    var after := before + Zip(news, docs);
    assert AfterAdd(s, uuid, name, md5, docs).db == Some(Store(after));
    StoreIdsAppend(before, news, docs);
  }

  /** The ids of `before` followed by documents stored under ids are those ids appended. */
  lemma StoreIdsAppend(before: seq<(string, Document)>, ids: seq<string>, docs: seq<Document>)
    requires |ids| == |docs|
    ensures StoreIds(Some(Store(before + Zip(ids, docs)))) == StoreIds(Some(Store(before))) + ids
  {
    var after := before + Zip(ids, docs);
    var l := StoreIds(Some(Store(after)));
    var r := StoreIds(Some(Store(before))) + ids;
    forall j | 0 <= j < |after|
      ensures l[j] == r[j]
    {
      if j < |before| {
        assert after[j] == before[j];
      } else {
        assert after[j] == Zip(ids, docs)[j - |before|];
      }
    }
  }

  /** Storing documents keeps the id invariant, and none of the new ids was in the store before. */
  lemma AfterAddKeepsIdsFresh(s: DbState, uuid: nat -> string, name: string, md5: string, docs: seq<Document>)
    requires IdsFresh(s, uuid)
    ensures IdsFresh(AfterAdd(s, uuid, name, md5, docs), uuid)
    ensures forall id :: id in Uuids(uuid, s.uuidCount, |docs|) ==> id !in StoreIds(s.db)
  {
    var t := AfterAdd(s, uuid, name, md5, docs);
    var n := |docs|;
    var old_ := StoreIds(s.db);
    var news := Uuids(uuid, s.uuidCount, n);
    var ids := StoreIds(t.db);
    AfterAddStoreIds(s, uuid, name, md5, docs);
    UuidsFresh(uuid, s.uuidCount, n);
    forall id | id in news
      ensures id !in old_
    {
      var j :| 0 <= j < n && news[j] == id;
      assert id == uuid(s.uuidCount + j);
    }
    forall i, j | 0 <= i < j < |ids|
      ensures ids[i] != ids[j]
    {
      if i >= |old_| {
        assert ids[i] == news[i - |old_|] && ids[j] == news[j - |old_|];
      } else if j >= |old_| {
        assert ids[j] == news[j - |old_|] && ids[i] == old_[i];
      } else {
        assert ids[i] == old_[i] && ids[j] == old_[j];
      }
    }
    forall k: nat | t.uuidCount <= k
      ensures uuid(k) !in ids
    {
      assert uuid(k) !in old_;
      forall j | 0 <= j < n
        ensures news[j] != uuid(k)
      {
        assert news[j] == uuid(s.uuidCount + j);
      }
    }
  }

  /** add_index_file keeps the id invariant: no document id is ever reused. */
  lemma AddKeepsIdsFresh(s: DbState, uuid: nat -> string, file: string, md5: string,
                         split: Loader -> Result<seq<Document>, string>)
    requires IdsFresh(s, uuid)
    ensures IdsFresh(AddSpec(s, uuid, file, md5, split).0, uuid)
  {
    if !Indexed(s.indexList, md5) && Analyze(file, split).Success? {
      AfterAddKeepsIdsFresh(s, uuid, Basename(file), md5, Analyze(file, split).value);
    }
  }

  // ---------------------------------------------------------------------------
  // Queries (query_database).

  const EmptyQueryMessage: string := "Query cannot be None or empty"
  const ContextSeparator: string := "\n\n"
  const SourceSeparator: string := "\n"

  /** The result triple (success, context, sources). */
  datatype QueryAnswer = QueryAnswer(success: bool, context: Option<string>, sources: Option<string>)

  const NoAnswer: QueryAnswer := QueryAnswer(false, None, None)

  /**
   * similarity_search_with_relevance_scores with k = INDEX_NUM and the score
   * threshold: of the store's ranking (best first), the first k that score
   * at least the threshold, in rank order.
   */
  function Relevant(ranked: seq<(Document, real)>): (hits: seq<Document>)
    ensures |hits| <= IndexNum && |hits| <= |ranked|
    ensures forall d :: d in hits ==> exists i :: 0 <= i < IndexNum && i < |ranked| && ranked[i] == (d, ranked[i].1) && ranked[i].1 >= ScoreThreshold
    ensures forall i :: 0 <= i < IndexNum && i < |ranked| && ranked[i].1 >= ScoreThreshold ==> ranked[i].0 in hits
    ensures hits == [] <==> forall i :: 0 <= i < IndexNum && i < |ranked| ==> ranked[i].1 < ScoreThreshold
  {
    var top := if |ranked| <= IndexNum then ranked else ranked[..IndexNum];
    assert forall i :: 0 <= i < |top| ==> top[i] == ranked[i];
    Passing(top)
  }

  /** When the ranking draws only on stored documents, so do the hits. */
  lemma RelevantHitsStored(ranked: seq<(Document, real)>, store: Store)
    requires forall i :: 0 <= i < |ranked| ==> exists j :: 0 <= j < |store.entries| && store.entries[j].1 == ranked[i].0
    ensures forall d :: d in Relevant(ranked) ==> exists j :: 0 <= j < |store.entries| && store.entries[j].1 == d
  {
  }

  /** The documents of `scored` whose score reaches the threshold, in order. */
  function Passing(scored: seq<(Document, real)>): (hits: seq<Document>)
    ensures |hits| <= |scored|
    ensures forall d :: d in hits ==> exists i :: 0 <= i < |scored| && scored[i] == (d, scored[i].1) && scored[i].1 >= ScoreThreshold
    ensures forall i :: 0 <= i < |scored| && scored[i].1 >= ScoreThreshold ==> scored[i].0 in hits
    ensures hits == [] <==> forall i :: 0 <= i < |scored| ==> scored[i].1 < ScoreThreshold
  {
    if scored == [] then []
    else
      var rest := Passing(scored[..|scored| - 1]);
      var last := scored[|scored| - 1];
      assert forall i :: 0 <= i < |scored| - 1 ==> scored[..|scored| - 1][i] == scored[i];
      if last.1 >= ScoreThreshold then
        assert scored[|scored| - 1] == (last.0, scored[|scored| - 1].1);
        rest + [last.0]
      else rest
  }

  /** Filtering a concatenation filters each part and keeps their order. */
  lemma {:induction false} PassingAppend(a: seq<(Document, real)>, b: seq<(Document, real)>)
    ensures Passing(a + b) == Passing(a) + Passing(b)
    decreases |b|
  {
    if b == [] {
      assert a + b == a;
    } else {
      var b' := b[..|b| - 1];
      assert (a + b)[..|a + b| - 1] == a + b';
      assert (a + b)[|a + b| - 1] == b[|b| - 1];
      PassingAppend(a, b');
    }
  }

  /** The hits in full: the best-ranked document if it passes, then the second if it passes. */
  lemma RelevantInRankOrder(ranked: seq<(Document, real)>)
    ensures Relevant(ranked) ==
      (if |ranked| > 0 && ranked[0].1 >= ScoreThreshold then [ranked[0].0] else []) +
      (if |ranked| > 1 && ranked[1].1 >= ScoreThreshold then [ranked[1].0] else [])
  {
    var top := if |ranked| <= IndexNum then ranked else ranked[..IndexNum];
    if |top| == 2 {
      assert top == [top[0]] + [top[1]];
      PassingAppend([top[0]], [top[1]]);
      assert [top[0]][..0] == [];
      assert [top[1]][..0] == [];
    } else if |top| == 1 {
      assert top[..0] == [];
    }
  }

  function Contents(hits: seq<Document>): (c: seq<string>)
    ensures |c| == |hits| && forall j :: 0 <= j < |hits| ==> c[j] == hits[j].content
  {
    seq(|hits|, j requires 0 <= j < |hits| => hits[j].content)
  }

  /** The distinct elements of xs, in order of first occurrence. */
  function Distinct(xs: seq<string>): (d: seq<string>)
    ensures forall i, j :: 0 <= i < j < |d| ==> d[i] != d[j]
    ensures forall x :: x in d <==> x in xs
    ensures |d| <= |xs|
  {
    if xs == [] then []
    else
      var rest := Distinct(xs[..|xs| - 1]);
      var last := xs[|xs| - 1];
      assert forall x :: x in xs <==> x in xs[..|xs| - 1] || x == last;
      if last in rest then rest else rest + [last]
  }

  /** `{doc.metadata["source"] for doc in hits}`. */
  function SourceSet(hits: seq<Document>): (s: seq<string>)
    ensures forall x :: x in s <==> exists j :: 0 <= j < |hits| && hits[j].source == x
    ensures forall i, j :: 0 <= i < j < |s| ==> s[i] != s[j]
  {
    var sources := seq(|hits|, j requires 0 <= j < |hits| => hits[j].source);
    forall x
      ensures x in sources <==> exists j :: 0 <= j < |hits| && hits[j].source == x
    {
      if x in sources {
        var j :| 0 <= j < |sources| && sources[j] == x;
        assert hits[j].source == x;
      }
      if exists j :: 0 <= j < |hits| && hits[j].source == x {
        var j :| 0 <= j < |hits| && hits[j].source == x;
        assert sources[j] == x;
      }
    }
    Distinct(sources)
  }

  /** __load_exists_index: the list read from index.json, or an empty list on any read or parse error. */
  function LoadExistsIndex(read: Result<seq<IndexEntry>, string>): (list: seq<IndexEntry>)
    ensures read.Failure? ==> list == []
    ensures read.Success? ==> list == read.value
  {
    match read
    case Success(l) => l
    case Failure(_) => []
  }

  // ---------------------------------------------------------------------------
  // The database object.

  class EmbeddingDatabase {
    /** The UUID generator's output stream. */
    const uuid: nat -> string
    var db: Option<Store>
    var indexList: seq<IndexEntry>
    var uuidCount: nat
    /** The index list last written to index.json and the store last saved by this object. */
    var savedIndex: Option<seq<IndexEntry>>
    var savedDb: Option<Store>

    ghost function State(): DbState
      reads this
    {
      DbState(db, indexList, uuidCount, savedIndex, savedDb)
    }

    /**
     * `__init__`: the saved store if index.faiss exists, and the index list from
     * index.json if it exists (`indexJson` is None when it does not, otherwise
     * the outcome of reading and parsing it).
     */
    constructor (uuid: nat -> string, savedStore: Option<Store>, indexJson: Option<Result<seq<IndexEntry>, string>>)
      ensures this.uuid == uuid && db == savedStore && uuidCount == 0
      ensures indexList == if indexJson.None? then [] else LoadExistsIndex(indexJson.value)
      ensures savedIndex.None? && savedDb.None?
    {
      this.uuid := uuid;
      db := savedStore;
      indexList := if indexJson.None? then [] else LoadExistsIndex(indexJson.value);
      uuidCount := 0;
      savedIndex := None;
      savedDb := None;
    }

    /** __save_index: append the entry, then write the index list and the store. */
    method SaveIndex(name: string, md5: string, docIds: seq<string>)
      modifies this`indexList, this`savedIndex, this`savedDb
      ensures indexList == old(indexList) + [IndexEntry(name, md5, docIds)]
      ensures savedIndex == Some(indexList) && savedDb == db
    {
      indexList := indexList + [IndexEntry(name, md5, docIds)];
      savedIndex := Some(indexList);
      savedDb := db;
    }

    /** __add_documents: create the store if needed, add the documents under fresh ids, save. */
    method AddDocuments(name: string, docs: seq<Document>, md5: string)
      modifies this`db, this`uuidCount, this`indexList, this`savedIndex, this`savedDb
      ensures var ids := Uuids(uuid, old(uuidCount), |docs|);
        && db == Some(WithDocuments(old(db), ids, docs))
        && uuidCount == old(uuidCount) + |docs|
        && indexList == old(indexList) + [IndexEntry(name, md5, ids)]
        && savedIndex == Some(indexList) && savedDb == db
    {
      if db.None? {
        db := Some(Store([]));
      }
      var ids := Uuids(uuid, uuidCount, |docs|);
      uuidCount := uuidCount + |docs|;
      db := Some(Store(db.value.entries + Zip(ids, docs)));
      SaveIndex(name, md5, ids);
    }

    /** __analyze_file_to_db: dispatch on the extension, split, and store the documents or raise. */
    method AnalyzeFileToDb(file: string, md5: string, split: Loader -> Result<seq<Document>, string>)
      returns (r: Result<(), string>)
      modifies this`db, this`uuidCount, this`indexList, this`savedIndex, this`savedDb
      ensures var analysed := Analyze(file, split);
        && (analysed.Failure? ==> r == Failure(analysed.error) && State() == old(State()))
        && (analysed.Success? ==> r == Success(()) && State() == AfterAdd(old(State()), uuid, Basename(file), md5, analysed.value))
    {
      var fileBaseName := Basename(file);
      var fileExt := FileExtension(file);
      var loader := LoaderFor(fileExt);
      if loader.None? {
        return Failure(UnsupportedExtensionPrefix + fileExt);
      }
      var docs := split(loader.value);
      if docs.Failure? {
        return Failure(docs.error);
      }
      if docs.value == [] {
        return Failure(CannotAnalyzePrefix + fileBaseName);
      }
      AddDocuments(fileBaseName, docs.value, md5);
      return Success(());
    }

    /** add_index_file: (1, md5) if an entry already has the MD5, else analyse the file and return (0, md5). */
    method AddIndexFile(file: string, md5: string, split: Loader -> Result<seq<Document>, string>)
      returns (r: Result<(int, string), string>)
      modifies this`db, this`uuidCount, this`indexList, this`savedIndex, this`savedDb
      ensures (State(), r) == AddSpec(old(State()), uuid, file, md5, split)
    {
      for i := 0 to |indexList|
        invariant forall k :: 0 <= k < i ==> indexList[k].md5 != md5
      {
        if indexList[i].md5 == md5 {
          return Success((1, md5));
        }
      }
      var analysed := AnalyzeFileToDb(file, md5, split);
      if analysed.Failure? {
        return Failure(analysed.error);
      }
      return Success((0, md5));
    }

    /**
     * query_database: an empty query raises; with no store or no relevant
     * document the answer is (False, None, None); otherwise the contents joined
     * by blank lines and the distinct sources joined by newlines.
     * `ranked` is the store's relevance ranking for the query, best first.
     */
    function QueryDatabase(query: Option<string>, ranked: seq<(Document, real)>): (r: Result<QueryAnswer, string>)
      reads this
      ensures r.Failure? <==> query.None? || query.value == []
      ensures r.Failure? ==> r.error == EmptyQueryMessage
      ensures r.Success? && r.value.success <==> r.Success? && db.Some? && Relevant(ranked) != []
      ensures r.Success? && !r.value.success ==> r.value == NoAnswer
      ensures r.Success? && r.value.success ==>
        && r.value.context == Some(Strings.Join(Contents(Relevant(ranked)), ContextSeparator))
        && r.value.sources == Some(Strings.Join(SourceSet(Relevant(ranked)), SourceSeparator))
    {
      if query.None? || query.value == [] then Failure(EmptyQueryMessage)
      else if db.None? then Success(NoAnswer)
      else
        var hits := Relevant(ranked);
        if hits == [] then Success(NoAnswer)
        else Success(QueryAnswer(true, Some(Strings.Join(Contents(hits), ContextSeparator)),
                                 Some(Strings.Join(SourceSet(hits), SourceSeparator))))
    }
  }

  /** A successful answer's context starts with the best hit and has one part per hit, blank-line separated. */
  lemma QueryContextShape(hits: seq<Document>)
    requires hits != []
    ensures var context := Strings.Join(Contents(hits), ContextSeparator);
      && hits[0].content <= context
      && |context| == Strings.TotalLength(Contents(hits)) + (|hits| - 1) * 2
  {
    Strings.JoinStartsWithFirst(Contents(hits), ContextSeparator);
    Strings.JoinLength(Contents(hits), ContextSeparator);
  }
}
