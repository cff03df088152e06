/** `embed_ontology.py`: the JSON-LD ontology is cut into one text chunk per
    `@graph` node that has an `@id`, and the chunk texts are sent to the
    embedding service in batches of fifty. */
module EmbedOntology {
  import opened Wrappers
  import opened Text
  import opened JsonValue
  import opened Clients

  const BatchSize: nat := 50
  const EntityPrefix: string := "Entity ID: "
  const IdKey: string := "@id"

  // ---------------------------------------------------------------------------
  // flatten_value
  // ---------------------------------------------------------------------------

  /** `str(v)` of a scalar loaded from JSON: Python's `None`, `True`,
      `False`, the number's literal text, the string itself. */
  function ScalarText(v: Json): (r: string)
    requires !v.JObj? && !v.JArr?
    ensures v.JStr? ==> r == v.s
    ensures v.JNull? ==> r == "None"
  {
    match v
    case JNull => "None"
    case JBool(b) => if b then "True" else "False"
    case JNum(t) => t
    case JStr(s) => s
  }

  /** `flatten_value`: a dict becomes its `key: value` pairs in key order
      joined by "; ", a list its elements joined by ", ", and any other value
      its `str`. */
  function Flatten(v: Json): (r: string)
    ensures v.JStr? ==> r == v.s
    ensures v == JArr([]) || v == JObj([]) ==> r == ""
    decreases v
  {
    match v
    case JObj(es) => Join(PairTexts(v, es), "; ")
    case JArr(xs) => Join(ItemTexts(v, xs), ", ")
    case _ => ScalarText(v)
  }

  /** The `f"{kk}: {flatten_value(vv)}"` parts of a dict. */
  function PairTexts(ghost parent: Json, es: seq<(string, Json)>): (r: seq<string>)
    requires forall i :: 0 <= i < |es| ==> es[i].1 < parent
    ensures |r| == |es|
    decreases parent, 0
  {
    seq(|es|, i requires 0 <= i < |es| => es[i].0 + ": " + Flatten(es[i].1))
  }

  /** The `flatten_value(x)` parts of a list. */
  function ItemTexts(ghost parent: Json, xs: seq<Json>): (r: seq<string>)
    requires forall i :: 0 <= i < |xs| ==> xs[i] < parent
    ensures |r| == |xs|
    decreases parent, 0
  {
    seq(|xs|, i requires 0 <= i < |xs| => Flatten(xs[i]))
  }

  /** A one-element list flattens to its element, a one-entry dict to its
      `key: value` pair. */
  lemma FlattenSingletons(x: Json, k: string)
    ensures Flatten(JArr([x])) == Flatten(x)
    ensures Flatten(JObj([(k, x)])) == k + ": " + Flatten(x)
  {
    assert ItemTexts(JArr([x]), [x]) == [Flatten(x)];
    assert PairTexts(JObj([(k, x)]), [(k, x)]) == [k + ": " + Flatten(x)];
  }

  /** Flattening a list is compositional: the flattened halves of a split
      list are joined by one ", ". */
  lemma FlattenListAppend(xs: seq<Json>, ys: seq<Json>)
    requires xs != [] && ys != []
    ensures Flatten(JArr(xs + ys)) == Flatten(JArr(xs)) + ", " + Flatten(JArr(ys))
  {
    var whole := ItemTexts(JArr(xs + ys), xs + ys);
    assert whole == ItemTexts(JArr(xs), xs) + ItemTexts(JArr(ys), ys);
    JoinAppend(ItemTexts(JArr(xs), xs), ItemTexts(JArr(ys), ys), ", ");
  }

  /** Flattening a dict is compositional in the same way, with "; ", so the
      pairs appear in key order. */
  lemma FlattenDictAppend(es: seq<(string, Json)>, fs: seq<(string, Json)>)
    requires es != [] && fs != []
    ensures Flatten(JObj(es + fs)) == Flatten(JObj(es)) + "; " + Flatten(JObj(fs))
  {
    var whole := PairTexts(JObj(es + fs), es + fs);
    assert whole == PairTexts(JObj(es), es) + PairTexts(JObj(fs), fs);
    JoinAppend(PairTexts(JObj(es), es), PairTexts(JObj(fs), fs), "; ");
  }

  // ---------------------------------------------------------------------------
  // The text of one chunk
  // ---------------------------------------------------------------------------

  /** The f-string `f"{iri}"`. */
  function IriText(iri: Json): string {
    if iri.JObj? || iri.JArr? then Flatten(iri) else ScalarText(iri)
  }

  /** `f"Entity ID: {iri}."`, the first line of every chunk. */
  function EntityLine(iri: Json): string {
    EntityPrefix + IriText(iri) + "."
  }

  /** `flatten_value(v).strip()`. */
  function Value(v: Json): string {
    Strip(Flatten(v))
  }

  /** The line one `(k, v)` of a node contributes: none for `@id` or for a
      value that flattens to blanks only, else `f"{k}: {val}."`. */
  function KeyLine(k: string, v: Json): seq<string> {
    var val := Value(v);
    if k == IdKey || val == "" then [] else [k + ": " + val + "."]
  }

  /** The lines of all the entries of a node, in key order. */
  function KeyLines(es: seq<(string, Json)>): (r: seq<string>)
    ensures |r| <= |es|
  {
    if es == [] then [] else KeyLine(es[0].0, es[0].1) + KeyLines(es[1..])
  }

  /** The lines of a node are those of its entries, in the entries' order. */
  lemma {:induction false} KeyLinesAppend(es: seq<(string, Json)>, fs: seq<(string, Json)>)
    ensures KeyLines(es + fs) == KeyLines(es) + KeyLines(fs)
    decreases |es|
  {
    if es == [] {
      assert es + fs == fs;
    } else {
      assert (es + fs)[0] == es[0];
      assert (es + fs)[1..] == es[1..] + fs;
      KeyLinesAppend(es[1..], fs);
      assert KeyLines(es + fs) == KeyLine(es[0].0, es[0].1) + KeyLines(es[1..] + fs);
    }
  }

  lemma KeyLinesStep(es: seq<(string, Json)>, j: nat)
    requires j < |es|
    ensures KeyLines(es[j..]) == KeyLine(es[j].0, es[j].1) + KeyLines(es[j + 1..])
  {
    assert es[j..][0] == es[j];
    assert es[j..][1..] == es[j + 1..];
  }

  /** The line of entry i is among the lines of the node. */
  lemma KeyLineWritten(es: seq<(string, Json)>, i: nat, line: string)
    requires i < |es| && KeyLine(es[i].0, es[i].1) == [line]
    ensures line in KeyLines(es)
  {
    assert es == es[..i] + es[i..];
    KeyLinesAppend(es[..i], es[i..]);
    KeyLinesStep(es, i);
  }

  /** Every line of the node is the line of one of its entries. */
  lemma {:induction false} KeyLineSource(es: seq<(string, Json)>, line: string)
    requires line in KeyLines(es)
    ensures exists i :: 0 <= i < |es| && KeyLine(es[i].0, es[i].1) == [line]
    decreases |es|
  {
    var head := KeyLine(es[0].0, es[0].1);
    assert KeyLines(es) == head + KeyLines(es[1..]);
    if line in head {
      assert head == [line];
    } else {
      KeyLineSource(es[1..], line);
      var i :| 0 <= i < |es[1..]| && KeyLine(es[1..][i].0, es[1..][i].1) == [line];
      assert es[1..][i] == es[i + 1];
    }
  }

  /** A line is written exactly for an entry other than `@id` whose stripped
      flattened value is not empty. */
  lemma KeyLinesMembers(es: seq<(string, Json)>, line: string)
    ensures line in KeyLines(es) <==>
      exists i :: 0 <= i < |es| && KeyLine(es[i].0, es[i].1) == [line]
  {
    if line in KeyLines(es) {
      KeyLineSource(es, line);
    }
    if exists i :: 0 <= i < |es| && KeyLine(es[i].0, es[i].1) == [line] {
      var i :| 0 <= i < |es| && KeyLine(es[i].0, es[i].1) == [line];
      KeyLineWritten(es, i, line);
    }
  }

  lemma Assoc<T>(a: seq<T>, b: seq<T>, c: seq<T>)
    ensures (a + b) + c == a + (b + c)
  {
  }

  /** The lines of a chunk: the entity line, then the entry lines. */
  function ChunkLines(iri: Json, es: seq<(string, Json)>): seq<string> {
    [EntityLine(iri)] + KeyLines(es)
  }

  /** `" ".join(lines)`: the entity line alone, or followed by one space and
      the entry lines separated by single spaces. */
  lemma ChunkTextShape(iri: Json, es: seq<(string, Json)>)
    ensures KeyLines(es) == [] ==> Join(ChunkLines(iri, es), " ") == EntityLine(iri)
    ensures KeyLines(es) != [] ==>
      Join(ChunkLines(iri, es), " ") == EntityLine(iri) + " " + Join(KeyLines(es), " ")
    ensures StartsWith(Join(ChunkLines(iri, es), " "), EntityLine(iri))
  {
    var text := Join(ChunkLines(iri, es), " ");
    if KeyLines(es) != [] {
      JoinAppend([EntityLine(iri)], KeyLines(es), " ");
      assert text[..|EntityLine(iri)|] == EntityLine(iri);
    }
  }

  /** The loop that builds `lines` for one node and joins them. */
  method ChunkText(iri: Json, es: seq<(string, Json)>) returns (text: string)
    ensures text == Join(ChunkLines(iri, es), " ")
    ensures StartsWith(text, EntityLine(iri))
  {
    var lines := [EntityLine(iri)];
    for j := 0 to |es|
      invariant lines + KeyLines(es[j..]) == ChunkLines(iri, es)
    {
      KeyLinesStep(es, j);
      ghost var before := lines;
      var (k, v) := es[j];
      if k != IdKey {
        var val := Value(v);
        if val != "" {
          lines := lines + [k + ": " + val + "."];
        }
      }
      assert lines == before + KeyLine(k, v);
      Assoc(before, KeyLine(k, v), KeyLines(es[j + 1..]));
    }
    assert es[|es|..] == [];
    assert KeyLines(es[|es|..]) == [];
    assert lines == ChunkLines(iri, es);
    text := Join(lines, " ");
    ChunkTextShape(iri, es);
  }

  // ---------------------------------------------------------------------------
  // make_chunks
  // ---------------------------------------------------------------------------

  /** One line of the chunks file: `{"id": iri, "text": text}`. */
  datatype Chunk = Chunk(id: Json, text: string)

  /** The chunk of a dict with an `@id`: that value as id, its lines joined
      by single spaces as text. */
  function ChunkOf(node: Json): Chunk
    requires node.JObj? && IdKey in Keys(node.entries)
  {
    var iri := Lookup(node.entries, IdKey).value;
    Chunk(iri, Join(ChunkLines(iri, node.entries), " "))
  }

  /** What one node of the graph gives: no chunk when it has no `@id`, the
      chunk of its `@id` and entries otherwise, or the error `in` and `[]`
      raise on a node that is not a dict. */
  function NodeChunk(node: Json): (r: Result<Option<Chunk>>)
    ensures node.JObj? ==> r.Ok?
    ensures node.JObj? && IdKey !in Keys(node.entries) ==> r == Ok(None)
    ensures node.JObj? && IdKey in Keys(node.entries) ==> r == Ok(Some(ChunkOf(node)))
    ensures r.Ok? && r.value.Some? ==> node.JObj? && Lookup(node.entries, IdKey) == Some(r.value.value.id)
    ensures r.Err? ==> !node.JObj?
  {
    match PyIn(node, IdKey)
    case Err(e) => Err(e)
    case Ok(false) => Ok(None)
    case Ok(true) =>
      match PyIndex(node, IdKey)
      case Err(e) => Err(e)
      case Ok(iri) => Ok(Some(Chunk(iri, Join(ChunkLines(iri, node.entries), " "))))
  }

  /** The chunks written for a graph, in graph order, and the error that
      stopped the loop, if any (the chunks before it are already in the
      file). */
  function Chunks(graph: seq<Json>): (r: (seq<Chunk>, Option<string>))
    ensures |r.0| <= |graph|
  {
    if graph == [] then ([], None) else Then(NodeChunk(graph[0]), Chunks(graph[1..]))
  }

  /** What one node makes of the loop over the nodes after it: an error
      ends it with nothing more written, a skipped node leaves it as it is,
      a chunk goes in front. */
  function Then(h: Result<Option<Chunk>>, rest: (seq<Chunk>, Option<string>)): (r: (seq<Chunk>, Option<string>))
    ensures |r.0| <= |rest.0| + 1
    ensures h.Ok? ==> r.1 == rest.1
  {
    match h
    case Err(e) => ([], Some(e))
    case Ok(None) => rest
    case Ok(Some(c)) => ([c] + rest.0, rest.1)
  }

  /** The loop step for a dict: it adds its chunk when it has an `@id` and
      is skipped otherwise. */
  lemma ChunksStep(graph: seq<Json>)
    requires graph != [] && graph[0].JObj?
    ensures IdKey in Keys(graph[0].entries) ==>
      Chunks(graph) == ([ChunkOf(graph[0])] + Chunks(graph[1..]).0, Chunks(graph[1..]).1)
    ensures IdKey !in Keys(graph[0].entries) ==> Chunks(graph) == Chunks(graph[1..])
  {
  }

  /** The nodes of a graph that are dicts with an `@id`, in order. */
  function IdNodes(graph: seq<Json>): (r: seq<Json>)
    ensures |r| <= |graph|
    ensures forall n :: n in r ==> n in graph && n.JObj? && IdKey in Keys(n.entries)
  {
    if graph == [] then []
    else if graph[0].JObj? && IdKey in Keys(graph[0].entries) then [graph[0]] + IdNodes(graph[1..])
    else IdNodes(graph[1..])
  }

  /** The chunk of every node, in order. */
  function ChunksOf(ns: seq<Json>): (r: seq<Chunk>)
    requires forall n :: n in ns ==> n.JObj? && IdKey in Keys(n.entries)
    ensures |r| == |ns|
  {
    if ns == [] then [] else [ChunkOf(ns[0])] + ChunksOf(ns[1..])
  }

  lemma {:induction false} ChunksOfAt(ns: seq<Json>, i: nat)
    requires forall n :: n in ns ==> n.JObj? && IdKey in Keys(n.entries)
    requires i < |ns|
    ensures ChunksOf(ns)[i] == ChunkOf(ns[i])
    decreases i
  {
    if i > 0 {
      assert forall n :: n in ns[1..] ==> n in ns;
      ChunksOfAt(ns[1..], i - 1);
    }
  }

  /** On a graph of dicts the loop runs to the end and writes the chunks of
      the nodes with an `@id`, in order. */
  lemma {:induction false} DictGraphChunks(graph: seq<Json>)
    requires forall n :: n in graph ==> n.JObj?
    ensures Chunks(graph) == (ChunksOf(IdNodes(graph)), None)
  {
    if graph != [] {
      var rest := graph[1..];
      assert forall n :: n in rest ==> n in graph;
      DictGraphChunks(rest);
      ChunksStep(graph);
      if IdKey in Keys(graph[0].entries) {
        var ns := IdNodes(graph);
        assert ns == [graph[0]] + IdNodes(rest);
        assert ns[1..] == IdNodes(rest);
      }
    }
  }

  /** On a graph of dicts no error is raised, nodes without `@id` are
      skipped, and every other node gives exactly one chunk, in graph order:
      the i-th chunk is that of the i-th node with an `@id`. */
  lemma OneChunkPerIdNode(graph: seq<Json>)
    requires forall n :: n in graph ==> n.JObj?
    ensures Chunks(graph).1 == None
    ensures |Chunks(graph).0| == |IdNodes(graph)|
    ensures forall i :: 0 <= i < |IdNodes(graph)| ==> Chunks(graph).0[i] == ChunkOf(IdNodes(graph)[i])
  {
    DictGraphChunks(graph);
    forall i | 0 <= i < |IdNodes(graph)|
      ensures Chunks(graph).0[i] == ChunkOf(IdNodes(graph)[i])
    {
      ChunksOfAt(IdNodes(graph), i);
    }
  }

  /** When a node raises, the file holds exactly the chunks of the nodes
      before it. */
  lemma {:induction false} ErrorStopsTheFile(graph: seq<Json>)
    requires Chunks(graph).1.Some?
    ensures exists j :: (0 <= j < |graph| && NodeChunk(graph[j]).Err?
                         && Chunks(graph[..j]) == (Chunks(graph).0, None))
  {
    var h := NodeChunk(graph[0]);
    if h.Err? {
      assert graph[..0] == [];
    } else {
      var rest := graph[1..];
      ErrorStopsTheFile(rest);
      var j :| 0 <= j < |rest| && NodeChunk(rest[j]).Err? && Chunks(rest[..j]) == (Chunks(rest).0, None);
      var g := graph[..j + 1];
      assert g[0] == graph[0] && g[1..] == rest[..j];
      assert Chunks(g) == Then(h, (Chunks(rest).0, None));
      assert rest[j] == graph[j + 1];
    }
  }

  /** The loop step at node i: an error stops the loop, a node without
      chunk is skipped, a chunk is written. */
  lemma ChunksAt(graph: seq<Json>, i: nat)
    requires i < |graph|
    ensures NodeChunk(graph[i]).Err? ==> Chunks(graph[i..]) == ([], Some(NodeChunk(graph[i]).msg))
    ensures NodeChunk(graph[i]) == Ok(None) ==> Chunks(graph[i..]) == Chunks(graph[i + 1..])
    ensures NodeChunk(graph[i]).Ok? && NodeChunk(graph[i]).value.Some? ==>
      Chunks(graph[i..]) == ([NodeChunk(graph[i]).value.value] + Chunks(graph[i + 1..]).0, Chunks(graph[i + 1..]).1)
  {
    assert graph[i..][0] == graph[i] && graph[i..][1..] == graph[i + 1..];
  }

  /** The body of the node loop: `in`, `[]`, then the lines of the node. */
  method ChunkNode(node: Json) returns (r: Result<Option<Chunk>>)
    ensures r == NodeChunk(node)
  {
    var has := PyIn(node, IdKey);
    if has.Err? {
      return Err(has.msg);
    }
    if !has.value {
      return Ok(None);
    }
    var iri := PyIndex(node, IdKey);
    if iri.Err? {
      return Err(iri.msg);
    }
    var text := ChunkText(iri.value, node.entries);
    return Ok(Some(Chunk(iri.value, text)));
  }

  /** `make_chunks` after `data.get("@graph", [])`: the node loop, with
      `count` bumped once per chunk written. */
  method MakeChunks(graph: seq<Json>) returns (written: seq<Chunk>, error: Option<string>, count: nat)
    ensures (written, error) == Chunks(graph)
    ensures count == |written|
  {
    written, error, count := [], None, 0;
    assert graph[0..] == graph;
    assert written + Chunks(graph).0 == Chunks(graph).0;
    for i := 0 to |graph|
      invariant Chunks(graph) == (written + Chunks(graph[i..]).0, Chunks(graph[i..]).1)
      invariant count == |written|
    {
      ChunksAt(graph, i);
      var r := ChunkNode(graph[i]);
      if r.Err? {
        error := Some(r.msg);
        assert written + [] == written;
        return;
      }
      if r.value.None? {
        continue;
      }
      Assoc(written, [r.value.value], Chunks(graph[i + 1..]).0);
      written := written + [r.value.value];
      count := count + 1;
    }
    assert graph[|graph|..] == [];
    assert written + [] == written;
  }

  // ---------------------------------------------------------------------------
  // embed_all
  // ---------------------------------------------------------------------------

  /** `ids` and `texts` read back from the chunks file: parallel to the
      chunks and to each other. */
  function Columns(chunks: seq<Chunk>): (r: (seq<Json>, seq<string>))
    ensures |r.0| == |chunks| && |r.1| == |chunks|
    ensures forall i :: 0 <= i < |chunks| ==> r.0[i] == chunks[i].id && r.1[i] == chunks[i].text
  {
    (seq(|chunks|, i requires 0 <= i < |chunks| => chunks[i].id),
     seq(|chunks|, i requires 0 <= i < |chunks| => chunks[i].text))
  }

  /** The slices `texts[i : i + BATCH_SIZE]` for `i` in `range(0, total,
      BATCH_SIZE)`. */
  function Batches(texts: seq<string>): (bs: seq<seq<string>>)
    ensures forall b :: b in bs ==> 0 < |b| <= BatchSize
    decreases |texts|
  {
    if texts == [] then []
    else if |texts| <= BatchSize then [texts]
    else [texts[..BatchSize]] + Batches(texts[BatchSize..])
  }

  function Concat(bs: seq<seq<string>>): seq<string> {
    if bs == [] then [] else bs[0] + Concat(bs[1..])
  }

  /** The batches cover every text exactly once, in order. */
  lemma {:induction false} BatchesCover(texts: seq<string>)
    ensures Concat(Batches(texts)) == texts
    decreases |texts|
  {
    if |texts| > BatchSize {
      BatchesCover(texts[BatchSize..]);
      assert texts[..BatchSize] + texts[BatchSize..] == texts;
    }
  }

  /** There are `ceil(total / BATCH_SIZE)` batches. */
  lemma {:induction false} BatchCount(texts: seq<string>)
    ensures |Batches(texts)| == (|texts| + BatchSize - 1) / BatchSize
    decreases |texts|
  {
    if |texts| > BatchSize {
      BatchCount(texts[BatchSize..]);
    }
  }

  /** Batch k is the slice starting at `k * BATCH_SIZE`, clipped at the end
      of the list. */
  lemma {:induction false} BatchIndex(texts: seq<string>, k: nat)
    requires k < |Batches(texts)|
    ensures k * BatchSize < |texts|
    ensures Batches(texts)[k] == texts[k * BatchSize .. Min(k * BatchSize + BatchSize, |texts|)]
    decreases k
  {
    if k == 0 {
      assert Batches(texts)[0] == texts[..Min(BatchSize, |texts|)];
    } else {
      assert |texts| > BatchSize;
      var rest := texts[BatchSize..];
      assert Batches(texts) == [texts[..BatchSize]] + Batches(rest);
      BatchIndex(rest, k - 1);
      var lo, hi := (k - 1) * BatchSize, Min((k - 1) * BatchSize + BatchSize, |rest|);
      SliceOfDrop(texts, BatchSize, lo, hi);
      assert BatchSize + lo == k * BatchSize;
      assert BatchSize + hi == Min(k * BatchSize + BatchSize, |texts|);
    }
  }

  lemma SliceOfDrop<T>(s: seq<T>, d: nat, lo: nat, hi: nat)
    requires d <= |s| && lo <= hi <= |s| - d
    ensures s[d..][lo..hi] == s[d + lo .. d + hi]
  {
  }

  /** Batch k exists exactly when `k * BATCH_SIZE` is still inside the
      list. */
  lemma {:induction false} BatchExists(texts: seq<string>, k: nat)
    ensures k < |Batches(texts)| <==> k * BatchSize < |texts|
    decreases k
  {
    if k > 0 && |texts| > BatchSize {
      BatchExists(texts[BatchSize..], k - 1);
    }
  }

  /** Both together: the batches are the consecutive slices of the texts. */
  lemma BatchAt(texts: seq<string>)
    ensures |Batches(texts)| == (|texts| + BatchSize - 1) / BatchSize
    ensures forall k :: 0 <= k < |Batches(texts)| ==>
      Batches(texts)[k] == texts[k * BatchSize .. Min(k * BatchSize + BatchSize, |texts|)]
  {
    BatchCount(texts);
    forall k | 0 <= k < |Batches(texts)|
      ensures Batches(texts)[k] == texts[k * BatchSize .. Min(k * BatchSize + BatchSize, |texts|)]
    {
      BatchIndex(texts, k);
    }
  }

  /** `embed_batch`: one POST for the batch; any status other than 200
      raises, with no retry. The body of a 200 is the list of embeddings. */
  function EmbedBatch(reply: Response<seq<seq<real>>>): (r: Result<seq<seq<real>>>)
    ensures r.Ok? <==> reply.Reply? && reply.status == 200
    ensures r.Ok? ==> r.value == reply.body
  {
    match reply
    case Raised => Err("RequestException")
    case Reply(status, body) =>
      if status != 200 then Err("RuntimeError: Embedding request failed") else Ok(body)
  }

  /** The embeddings of batches `k..` of `bs`, `post(k, bs[k])` being the
      service's answer to the k-th call, and the number of batches embedded
      (each followed by a pause). */
  function Embedded(bs: seq<seq<string>>, k: nat, post: (nat, seq<string>) -> Response<seq<seq<real>>>)
    : (r: (Result<seq<seq<real>>>, nat))
    requires k <= |bs|
    ensures k + r.1 <= |bs|
    ensures forall j :: k <= j < k + r.1 ==> EmbedBatch(post(j, bs[j])).Ok?
    ensures r.0.Ok? ==> k + r.1 == |bs|
    ensures r.0.Err? ==> k + r.1 < |bs| && EmbedBatch(post(k + r.1, bs[k + r.1])).Err?
    decreases |bs| - k
  {
    if k == |bs| then (Ok([]), 0)
    else
      match EmbedBatch(post(k, bs[k]))
      case Err(e) => (Err(e), 0)
      case Ok(v) =>
        var rest := Embedded(bs, k + 1, post);
        (if rest.0.Ok? then Ok(v + rest.0.value) else rest.0, rest.1 + 1)
  }

  /** One answered batch: its embeddings come before those of the later
      batches, and it adds one pause. */
  lemma EmbeddedStep(bs: seq<seq<string>>, k: nat, post: (nat, seq<string>) -> Response<seq<seq<real>>>)
    requires k < |bs| && EmbedBatch(post(k, bs[k])).Ok?
    ensures var v, rest := EmbedBatch(post(k, bs[k])).value, Embedded(bs, k + 1, post);
      Embedded(bs, k, post) == (if rest.0.Ok? then Ok(v + rest.0.value) else rest.0, rest.1 + 1)
  {
  }

  /** When every answer holds one embedding per text of its batch, the saved
      embeddings are parallel to the texts (and so to the ids). */
  lemma {:induction false} EmbeddingsParallel(bs: seq<seq<string>>, k: nat, post: (nat, seq<string>) -> Response<seq<seq<real>>>)
    requires k <= |bs|
    requires forall j :: k <= j < |bs| ==> post(j, bs[j]).Reply? ==> |post(j, bs[j]).body| == |bs[j]|
    requires Embedded(bs, k, post).0.Ok?
    ensures |Embedded(bs, k, post).0.value| == |Concat(bs[k..])|
    decreases |bs| - k
  {
    if k < |bs| {
      assert bs[k..][1..] == bs[k + 1..];
      EmbeddingsParallel(bs, k + 1, post);
    }
  }

  /** The embeddings in hand, `acc`, followed by those of batches `k..`. */
  function After(acc: seq<seq<real>>, rest: Result<seq<seq<real>>>): Result<seq<seq<real>>> {
    if rest.Ok? then Ok(acc + rest.value) else rest
  }

  /** Embedding batch k moves its vectors from the rest onto the
      embeddings in hand. */
  lemma EmbeddedAdvance(bs: seq<seq<string>>, k: nat, post: (nat, seq<string>) -> Response<seq<seq<real>>>, acc: seq<seq<real>>)
    requires k < |bs| && EmbedBatch(post(k, bs[k])).Ok?
    ensures After(acc, Embedded(bs, k, post).0)
      == After(acc + EmbedBatch(post(k, bs[k])).value, Embedded(bs, k + 1, post).0)
    ensures Embedded(bs, k, post).1 == Embedded(bs, k + 1, post).1 + 1
  {
    EmbeddedStep(bs, k, post);
    var rest := Embedded(bs, k + 1, post).0;
    if rest.Ok? {
      Assoc(acc, EmbedBatch(post(k, bs[k])).value, rest.value);
    }
  }

  /** A failed batch ends the loop with its error and no more pauses. */
  lemma EmbeddedStops(bs: seq<seq<string>>, k: nat, post: (nat, seq<string>) -> Response<seq<seq<real>>>)
    requires k < |bs| && EmbedBatch(post(k, bs[k])).Err?
    ensures Embedded(bs, k, post) == (Err(EmbedBatch(post(k, bs[k])).msg), 0)
  {
  }

  /** What `embed_all` saves: the embeddings, the ids and the texts. */
  datatype Saved = Saved(vectors: seq<seq<real>>, ids: seq<Json>, texts: seq<string>)

  /** `texts[i:i + BATCH_SIZE]`, the k-th batch. */
  method TakeBatch(texts: seq<string>, i: nat, k: nat) returns (batch: seq<string>)
    requires k < |Batches(texts)| && i == k * BatchSize
    ensures batch == Batches(texts)[k]
  {
    BatchIndex(texts, k);
    batch := texts[i..Min(i + BatchSize, |texts|)];
  }

  /** The batch loop from batch k on, with the embeddings `acc` in hand and
      `n` pauses made: each answered batch extends `acc` and adds a pause,
      and the first failed batch ends the loop with its error. */
  function EmbedFrom(bs: seq<seq<string>>, k: nat, post: (nat, seq<string>) -> Response<seq<seq<real>>>,
                     acc: seq<seq<real>>, n: nat): (Result<seq<seq<real>>>, nat)
    requires k <= |bs|
    decreases |bs| - k
  {
    if k == |bs| then (Ok(acc), n)
    else
      match EmbedBatch(post(k, bs[k]))
      case Err(e) => (Err(e), n)
      case Ok(v) => EmbedFrom(bs, k + 1, post, acc + v, n + 1)
  }

  /** The loop from batch k on gives the embeddings in hand followed by
      those of the batches `k..`, and one more pause per answered batch. */
  lemma {:induction false} EmbedFromEmbedded(bs: seq<seq<string>>, k: nat, post: (nat, seq<string>) -> Response<seq<seq<real>>>,
                                             acc: seq<seq<real>>, n: nat)
    requires k <= |bs|
    ensures EmbedFrom(bs, k, post, acc, n) == (After(acc, Embedded(bs, k, post).0), n + Embedded(bs, k, post).1)
    decreases |bs| - k
  {
    if k == |bs| {
      assert acc + [] == acc;
    } else if EmbedBatch(post(k, bs[k])).Err? {
      EmbeddedStops(bs, k, post);
    } else {
      var v := EmbedBatch(post(k, bs[k])).value;
      EmbedFromEmbedded(bs, k + 1, post, acc + v, n + 1);
      EmbeddedAdvance(bs, k, post, acc);
    }
  }

  /** The batch loop of `embed_all`: it extends `embeddings` and pauses
      after each answered batch; a failed batch raises. */
  method EmbedTexts(texts: seq<string>, post: (nat, seq<string>) -> Response<seq<seq<real>>>)
    returns (r: Result<seq<seq<real>>>, pauses: nat)
    ensures (r, pauses) == Embedded(Batches(texts), 0, post)
  {
    ghost var bs := Batches(texts);
    EmbedFromEmbedded(bs, 0, post, [], 0);
    assert Embedded(bs, 0, post).0.Ok? ==> [] + Embedded(bs, 0, post).0.value == Embedded(bs, 0, post).0.value;
    var embeddings: seq<seq<real>> := [];
    var total := |texts|;
    var i := 0;
    var k := 0;
    pauses := 0;
    BatchExists(texts, 0);
    while i < total
      invariant k <= |bs| && i == k * BatchSize
      invariant i < total <==> k < |bs|
      invariant EmbedFrom(bs, k, post, embeddings, pauses) == EmbedFrom(bs, 0, post, [], 0)
      decreases total - i
    {
      var batch := TakeBatch(texts, i, k);
      var embs := EmbedBatch(post(k, batch));
      if embs.Err? {
        return Err(embs.msg), pauses;
      }
      embeddings := embeddings + embs.value;
      pauses := pauses + 1;
      i := i + BatchSize;
      k := k + 1;
      BatchExists(texts, k);
    }
    r := Ok(embeddings);
  }

  /** `embed_all`: the ids and texts of the chunks, then the batch loop;
      a failed batch raises before anything is saved. */
  method EmbedAll(chunks: seq<Chunk>, post: (nat, seq<string>) -> Response<seq<seq<real>>>)
    returns (r: Result<Saved>, pauses: nat)
    ensures pauses == Embedded(Batches(Columns(chunks).1), 0, post).1
    ensures r.Ok? <==> Embedded(Batches(Columns(chunks).1), 0, post).0.Ok?
    ensures r.Ok? ==>
      r.value == Saved(Embedded(Batches(Columns(chunks).1), 0, post).0.value, Columns(chunks).0, Columns(chunks).1)
  {
    var (ids, texts) := Columns(chunks);
    var embeddings;
    embeddings, pauses := EmbedTexts(texts, post);
    if embeddings.Err? {
      return Err(embeddings.msg), pauses;
    }
    r := Ok(Saved(embeddings.value, ids, texts));
  }
}
